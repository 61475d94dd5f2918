/** Turning source rule groups into Prometheus rule groups, with the labels and
    matchers of their level enforced on every rule. */
module Rendering {
  import opened Text
  import opened AlertTypes
  import opened RuleOrder

  /** Labels forced onto every rule of a level. */
  function LevelLabels(level: Level): Labels {
    match level
    case NamespaceLevel(ns) => map["rule_level" := "namespace", "namespace" := ns]
    case ClusterLevel => map["rule_level" := "cluster"]
    case GlobalLevel => map["rule_level" := "global"]
  }

  /** Matchers forced into every expression of a level. */
  function LevelMatchers(level: Level): seq<Matcher> {
    match level
    case NamespaceLevel(ns) => [Matcher("=", "namespace", ns)]
    case _ => []
  }

  function Selectors(level: Level, rule: SourceRule): seq<Matcher> {
    if level == GlobalLevel then rule.selectors else []
  }

  function GroupLabels(group: string): Labels {
    map["rule_group" := group, "alerttype" := "metric"]
  }

  datatype Conversion = Disabled | Failed | Converted(rule: PromRule) {
    function Result(): Option<PromRule> {
      if Converted? then Some(rule) else None
    }
  }

  function EnforceExpr(enforcer: Enforcer, matchers: seq<Matcher>, expr: IntOrString): Option<IntOrString> {
    if matchers == [] then Some(expr)
    else match enforcer(matchers, expr.String())
      case Some(e) => Some(StrVal(e))
      case None => None
  }

  function Enforced(enforcer: Enforcer, matchers: seq<Matcher>, labels: Labels, rule: PromRule): Option<PromRule> {
    match EnforceExpr(enforcer, matchers, rule.expr)
    case Some(e) => Some(rule.(expr := e, labels := rule.labels + labels))
    case None => None
  }

  function Bare(rule: SourceRule): PromRule {
    var labels := if rule.severity == "" then rule.labels else rule.labels["severity" := rule.severity];
    PromRule(rule.alert, rule.duration, rule.expr, labels, rule.annotations)
  }

  function Convert(enforcer: Enforcer, level: Level, rule: SourceRule, group: string): Conversion {
    if rule.disable then Disabled
    else match Enforced(enforcer, Selectors(level, rule), map[], Bare(rule))
      case None => Failed
      case Some(r1) =>
        match Enforced(enforcer, LevelMatchers(level), LevelLabels(level), r1)
        case None => Failed
        case Some(r2) => Converted(r2.(labels := r2.labels + GroupLabels(group)))
  }

  // ----- What a rendered rule is -----

  function LabelAt(labels: Labels, k: string): Option<string> {
    if k in labels then Some(labels[k]) else None
  }

  /** The label `k` of a rendered rule: group, alert type and level cannot be set by the author, and neither can
      the namespace of a namespace rule; a severity is the rule's own; all other labels are the author's. */
  function ExpectedLabel(level: Level, rule: SourceRule, group: string, k: string): Option<string> {
    if k == "rule_group" then Some(group)
    else if k == "alerttype" then Some("metric")
    else if k == "rule_level" then
      Some(if level.NamespaceLevel? then "namespace" else if level.ClusterLevel? then "cluster" else "global")
    else if k == "namespace" && level.NamespaceLevel? then Some(level.namespace)
    else if k == "severity" && rule.severity != "" then Some(rule.severity)
    else LabelAt(rule.labels, k)
  }

  /** The expression of a rendered rule, if the enforcer answers: a namespace rule's with that namespace's matcher, a
      global rule's with its selectors; a rule with nothing to enforce keeps its expression as written. */
  function ExpectedExpr(enforcer: Enforcer, level: Level, rule: SourceRule): Option<IntOrString> {
    if level.NamespaceLevel? then
      var e := enforcer([Matcher("=", "namespace", level.namespace)], rule.expr.String());
      if e.Some? then Some(StrVal(e.value)) else None
    else if level.GlobalLevel? && rule.selectors != [] then
      var e := enforcer(rule.selectors, rule.expr.String());
      if e.Some? then Some(StrVal(e.value)) else None
    else Some(rule.expr)
  }

  predicate Convertible(enforcer: Enforcer, level: Level, rule: SourceRule) {
    !rule.disable && ExpectedExpr(enforcer, level, rule).Some?
  }

  ghost predicate IsConversion(enforcer: Enforcer, level: Level, rule: SourceRule, group: string, p: PromRule) {
    && !rule.disable && ExpectedExpr(enforcer, level, rule) == Some(p.expr)
    && p.alert == rule.alert && p.duration == rule.duration && p.annotations == rule.annotations
    && forall k :: LabelAt(p.labels, k) == ExpectedLabel(level, rule, group, k)
  }

  /** A rendered rule cannot pass for another level, namespace, group or severity: those labels win over whatever
      the author wrote, and all labels that are not enforced are the author's. */
  lemma LabelsEnforced(enforcer: Enforcer, level: Level, rule: SourceRule, group: string, k: string)
    requires Convert(enforcer, level, rule, group).Converted?
    ensures LabelAt(Convert(enforcer, level, rule, group).rule.labels, k) == ExpectedLabel(level, rule, group, k)
  {
    ConvertedLabels(enforcer, level, rule, group);
    LevelLabelAt(level, k);
    GroupLabelAt(group, k);
    MergedAt(Bare(rule).labels, LevelLabels(level), GroupLabels(group), k);
  }

  lemma ConvertedLabels(enforcer: Enforcer, level: Level, rule: SourceRule, group: string)
    requires Convert(enforcer, level, rule, group).Converted?
    ensures Convert(enforcer, level, rule, group).rule.labels == Bare(rule).labels + LevelLabels(level) + GroupLabels(group)
  {
    assert Bare(rule).labels + map[] == Bare(rule).labels;
  }

  lemma MergedAt(a: Labels, b: Labels, c: Labels, k: string)
    ensures LabelAt(a + b + c, k) ==
      if LabelAt(c, k).Some? then LabelAt(c, k) else if LabelAt(b, k).Some? then LabelAt(b, k) else LabelAt(a, k)
  {}

  lemma LevelLabelAt(level: Level, k: string)
    ensures LabelAt(LevelLabels(level), k) ==
      if k == "rule_level" then Some(if level.NamespaceLevel? then "namespace" else if level.ClusterLevel? then "cluster" else "global")
      else if k == "namespace" && level.NamespaceLevel? then Some(level.namespace)
      else None
  {
    assert "rule_level"[0] != "namespace"[0];
  }

  lemma GroupLabelAt(group: string, k: string)
    ensures LabelAt(GroupLabels(group), k) ==
      if k == "rule_group" then Some(group) else if k == "alerttype" then Some("metric") else None
  {
    assert "rule_group"[0] != "alerttype"[0];
  }

  /** A rule is converted exactly when it is not disabled and the enforcer answers. */
  lemma ExpressionEnforced(enforcer: Enforcer, level: Level, rule: SourceRule, group: string)
    ensures var c := Convert(enforcer, level, rule, group);
      && (c.Disabled? <==> rule.disable)
      && (c.Converted? <==> Convertible(enforcer, level, rule))
      && (c.Converted? ==>
            c.rule.alert == rule.alert && c.rule.duration == rule.duration && c.rule.annotations == rule.annotations
            && ExpectedExpr(enforcer, level, rule) == Some(c.rule.expr))
  {}

  lemma SameLabels(a: Labels, b: Labels)
    requires forall k :: LabelAt(a, k) == LabelAt(b, k)
    ensures a == b
  {
    assert forall k :: k in a <==> LabelAt(a, k).Some?;
    assert forall k :: k in b <==> LabelAt(b, k).Some?;
    assert forall k :: k in a ==> LabelAt(a, k).value == a[k];
    assert forall k :: k in b ==> LabelAt(b, k).value == b[k];
  }

  /** Those expectations determine the conversion. */
  lemma ConvertsExactly(enforcer: Enforcer, level: Level, rule: SourceRule, group: string, p: PromRule)
    ensures Convert(enforcer, level, rule, group) == Converted(p) <==> IsConversion(enforcer, level, rule, group, p)
  {
    ExpressionEnforced(enforcer, level, rule, group);
    var c := Convert(enforcer, level, rule, group);
    if c.Converted? {
      forall k ensures LabelAt(c.rule.labels, k) == ExpectedLabel(level, rule, group, k) {
        LabelsEnforced(enforcer, level, rule, group, k);
      }
      if IsConversion(enforcer, level, rule, group, p) {
        SameLabels(c.rule.labels, p.labels);
      }
    }
  }

  // ----- Whole groups -----

  function RenderRules(enforcer: Enforcer, level: Level, rules: seq<SourceRule>, group: string): seq<PromRule> {
    Collect((r: SourceRule) => Convert(enforcer, level, r, group).Result(), rules)
  }

  /** None when no rule of the group is left. */
  function RenderGroup(enforcer: Enforcer, level: Level, g: SourceGroup): Option<RuleGroup> {
    var rules := RenderRules(enforcer, level, g.rules, g.name);
    if rules == [] then None else Some(RuleGroup(g.name, g.interval, g.strategy, rules))
  }

  function Render(enforcer: Enforcer, level: Level, list: seq<SourceGroup>): seq<RuleGroup> {
    Collect((g: SourceGroup) => RenderGroup(enforcer, level, g), list)
  }

  /** `rules` are the conversions of the convertible rules of `s`, which are those at the positions `at`, in order. */
  ghost predicate RulesFrom(enforcer: Enforcer, level: Level, s: SourceGroup, rules: seq<PromRule>, at: seq<nat>) {
    && Increasing(at) && |at| == |rules|
    && (forall j :: 0 <= j < |at| ==> at[j] < |s.rules| && IsConversion(enforcer, level, s.rules[at[j]], s.name, rules[j]))
    && (forall i: nat :: i < |s.rules| && Convertible(enforcer, level, s.rules[i]) ==> i in at)
  }

  /** What a source group is rendered to, if anything. */
  ghost predicate RendersTo(enforcer: Enforcer, level: Level, s: SourceGroup, g: RuleGroup) {
    && g.name == s.name && g.interval == s.interval && g.strategy == s.strategy && g.rules != []
    && exists at :: RulesFrom(enforcer, level, s, g.rules, at)
  }

  lemma RulesCollected(enforcer: Enforcer, level: Level, s: SourceGroup) returns (at: seq<nat>)
    ensures RulesFrom(enforcer, level, s, RenderRules(enforcer, level, s.rules, s.name), at)
  {
    var f := (r: SourceRule) => Convert(enforcer, level, r, s.name).Result();
    at := CollectPlaces(f, s.rules);
    var rules := RenderRules(enforcer, level, s.rules, s.name);
    assert rules == Collect(f, s.rules);
    forall j | 0 <= j < |at| ensures IsConversion(enforcer, level, s.rules[at[j]], s.name, rules[j]) {
      assert f(s.rules[at[j]]) == Some(rules[j]);
      ConvertsExactly(enforcer, level, s.rules[at[j]], s.name, rules[j]);
    }
    forall i: nat | i < |s.rules| && Convertible(enforcer, level, s.rules[i]) ensures i in at {
      ExpressionEnforced(enforcer, level, s.rules[i], s.name);
      assert f(s.rules[i]).Some?;
    }
  }

  lemma {:induction false} IncreasingUnique(a: seq<nat>, b: seq<nat>)
    requires Increasing(a) && Increasing(b) && forall i :: i in a <==> i in b
    ensures a == b
  {
    assert b != [] ==> b[0] in b;
    if a != [] {
      assert a[0] in b && b != [];
      assert b[0] in a;
      assert a[0] == b[0];
      forall i ensures i in a[1..] <==> i in b[1..] {
        assert i in a[1..] <==> i in a && i != a[0];
        assert i in b[1..] <==> i in b && i != b[0];
      }
      IncreasingUnique(a[1..], b[1..]);
      assert a == [a[0]] + a[1..] && b == [b[0]] + b[1..];
    }
  }

  lemma RulesUnique(enforcer: Enforcer, level: Level, s: SourceGroup, a: seq<PromRule>, b: seq<PromRule>, at: seq<nat>, bt: seq<nat>)
    requires RulesFrom(enforcer, level, s, a, at) && RulesFrom(enforcer, level, s, b, bt)
    ensures a == b
  {
    forall i ensures i in at <==> i in bt {
      if i in at { assert i in bt; }
      if i in bt { assert i in at; }
    }
    IncreasingUnique(at, bt);
    forall j | 0 <= j < |a| ensures a[j] == b[j] {
      ConvertsExactly(enforcer, level, s.rules[at[j]], s.name, a[j]);
      ConvertsExactly(enforcer, level, s.rules[at[j]], s.name, b[j]);
    }
  }

  /** A group is left out exactly when none of its rules is convertible, and otherwise rendered to its convertible
      rules in order, under its own name, interval and strategy. */
  lemma RenderGroupExactly(enforcer: Enforcer, level: Level, s: SourceGroup, g: RuleGroup)
    ensures RenderGroup(enforcer, level, s) == Some(g) <==> RendersTo(enforcer, level, s, g)
    ensures RenderGroup(enforcer, level, s).None? <==> forall i :: 0 <= i < |s.rules| ==> !Convertible(enforcer, level, s.rules[i])
  {
    var rules := RenderRules(enforcer, level, s.rules, s.name);
    var at := RulesCollected(enforcer, level, s);
    if bt :| RulesFrom(enforcer, level, s, g.rules, bt) {
      RulesUnique(enforcer, level, s, rules, g.rules, at, bt);
    }
    NoneConvertible(enforcer, level, s, rules, at);
  }

  lemma NoneConvertible(enforcer: Enforcer, level: Level, s: SourceGroup, rules: seq<PromRule>, at: seq<nat>)
    requires RulesFrom(enforcer, level, s, rules, at)
    ensures rules == [] <==> forall i :: 0 <= i < |s.rules| ==> !Convertible(enforcer, level, s.rules[i])
  {
    if rules != [] {
      assert IsConversion(enforcer, level, s.rules[at[0]], s.name, rules[0]);
    }
  }

  /** The rendering of a list holds exactly what its groups render to. */
  lemma RenderExactly(enforcer: Enforcer, level: Level, list: seq<SourceGroup>, g: RuleGroup)
    ensures g in Render(enforcer, level, list) <==> exists s :: s in list && RendersTo(enforcer, level, s, g)
  {
    var f := (s: SourceGroup) => RenderGroup(enforcer, level, s);
    assert Render(enforcer, level, list) == Collect(f, list);
    CollectElements(f, list, g);
    forall s ensures f(s) == Some(g) <==> RendersTo(enforcer, level, s, g) {
      RenderGroupExactly(enforcer, level, s, g);
    }
  }

  ghost predicate DistinctSources(list: seq<SourceGroup>) {
    forall i, j :: 0 <= i < j < |list| ==> list[i].name != list[j].name
  }

  lemma {:induction false} CollectDistinct(render: SourceGroup -> Option<RuleGroup>, list: seq<SourceGroup>)
    requires DistinctSources(list) && forall s :: render(s).Some? ==> render(s).value.name == s.name
    ensures DistinctNames(Collect(render, list))
  {
    if list != [] {
      CollectDistinct(render, list[1..]);
      var rest := Collect(render, list[1..]);
      forall i | 0 <= i < |rest| ensures rest[i].name != list[0].name {
        CollectElements(render, list[1..], rest[i]);
        var s :| s in list[1..] && render(s) == Some(rest[i]);
        var k :| 0 <= k < |list[1..]| && list[1..][k] == s;
        assert list[k + 1] == s;
      }
    }
  }

  lemma RenderDistinct(enforcer: Enforcer, level: Level, list: seq<SourceGroup>)
    requires DistinctSources(list)
    ensures DistinctNames(Render(enforcer, level, list))
  {
    CollectDistinct((g: SourceGroup) => RenderGroup(enforcer, level, g), list);
  }

  /** The sorted rendering is the same for every order in which the API server lists the groups. */
  lemma RenderIgnoresListingOrder(enforcer: Enforcer, level: Level, a: seq<SourceGroup>, b: seq<SourceGroup>)
    requires DistinctSources(a) && DistinctSources(b)
    requires forall s :: s in a <==> s in b
    ensures SortedGroups(Render(enforcer, level, a)) == SortedGroups(Render(enforcer, level, b))
    ensures Render(enforcer, level, a) == [] <==> Render(enforcer, level, b) == []
  {
    var ra, rb := Render(enforcer, level, a), Render(enforcer, level, b);
    RenderDistinct(enforcer, level, a);
    RenderDistinct(enforcer, level, b);
    forall g ensures g in ra <==> g in rb {
      RenderExactly(enforcer, level, a, g);
      RenderExactly(enforcer, level, b, g);
    }
    SortIgnoresListingOrder(ra, rb);
    assert ra != [] ==> ra[0] in rb;
    assert rb != [] ==> rb[0] in ra;
  }

  // ----- The code -----

  /** Writes `enforced` over `labels` one key at a time, in whatever order the map yields its keys. */
  method OverwriteLabels(labels: Labels, enforced: Labels) returns (r: Labels)
    ensures r == labels + enforced
  {
    r := labels;
    var todo := enforced.Keys;
    while todo != {}
      invariant todo <= enforced.Keys
      invariant r == labels + (enforced - todo)
    {
      var k :| k in todo;
      r := r[k := enforced[k]];
      todo := todo - {k};
    }
  }

  method ApplyEnforceFuncs(enforcer: Enforcer, matchers: seq<Matcher>, labels: Labels, rule: PromRule)
    returns (r: Option<PromRule>)
    ensures r == Enforced(enforcer, matchers, labels, rule)
  {
    var prule := rule;
    if |matchers| > 0 {
      var expr := enforcer(matchers, prule.expr.String());
      if expr.None? {
        return None;
      }
      prule := prule.(expr := StrVal(expr.value));
    }
    if |labels| > 0 {
      var l := OverwriteLabels(prule.labels, labels);
      prule := prule.(labels := l);
    } else {
      assert prule.labels + labels == prule.labels;
    }
    return Some(prule);
  }

  lemma WriteGroupLabels(labels: Labels, group: string)
    ensures labels["rule_group" := group]["alerttype" := "metric"] == labels + GroupLabels(group)
  {}

  method ConvertRule(enforcer: Enforcer, level: Level, rule: SourceRule, group: string) returns (c: Conversion)
    ensures c == Convert(enforcer, level, rule, group)
  {
    if rule.disable {
      return Disabled;
    }
    var labels := rule.labels;
    if rule.severity != "" {
      labels := labels["severity" := rule.severity];
    }
    var prule := PromRule(rule.alert, rule.duration, rule.expr, labels, rule.annotations);
    var selected := ApplyEnforceFuncs(enforcer, Selectors(level, rule), map[], prule);
    if selected.None? {
      return Failed;
    }
    var common := ApplyEnforceFuncs(enforcer, LevelMatchers(level), LevelLabels(level), selected.value);
    if common.None? {
      return Failed;
    }
    prule := common.value;
    prule := prule.(labels := prule.labels["rule_group" := group]["alerttype" := "metric"]);
    WriteGroupLabels(common.value.labels, group);
    return Converted(prule);
  }

  lemma RenderRulesNext(enforcer: Enforcer, level: Level, rules: seq<SourceRule>, group: string, i: nat)
    requires i < |rules|
    ensures RenderRules(enforcer, level, rules[..i + 1], group)
         == RenderRules(enforcer, level, rules[..i], group) + Found(Convert(enforcer, level, rules[i], group).Result())
  {
    CollectNext((r: SourceRule) => Convert(enforcer, level, r, group).Result(), rules, i);
  }

  lemma RenderNext(enforcer: Enforcer, level: Level, list: seq<SourceGroup>, i: nat)
    requires i < |list|
    ensures Render(enforcer, level, list[..i + 1])
         == Render(enforcer, level, list[..i]) + Found(RenderGroup(enforcer, level, list[i]))
  {
    CollectNext((g: SourceGroup) => RenderGroup(enforcer, level, g), list, i);
  }

  /** A rule that cannot be converted is left out; a group with no rule left is left out. */
  method MakePrometheusRuleGroups(enforcer: Enforcer, level: Level, list: seq<SourceGroup>)
    returns (groups: seq<RuleGroup>)
    ensures groups == Render(enforcer, level, list)
  {
    groups := [];
    for i := 0 to |list|
      invariant groups == Render(enforcer, level, list[..i])
    {
      var g := list[i];
      var prules: seq<PromRule> := [];
      for j := 0 to |g.rules|
        invariant prules == RenderRules(enforcer, level, g.rules[..j], g.name)
      {
        var c := ConvertRule(enforcer, level, g.rules[j], g.name);
        if c.Converted? {
          prules := prules + [c.rule];
        }
        RenderRulesNext(enforcer, level, g.rules, g.name, j);
      }
      assert g.rules[..|g.rules|] == g.rules;
      RenderNext(enforcer, level, list, i);
      if |prules| > 0 {
        groups := groups + [RuleGroup(g.name, g.interval, g.strategy, prules)];
      }
    }
    assert list[..|list|] == list;
  }
}
