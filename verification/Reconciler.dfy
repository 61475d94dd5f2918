/** One reconcile of a rule-group controller, at any of the three levels. */
module Reconciler {
  import opened Text
  import opened AlertTypes
  import opened ObjectNames
  import opened ApiServer
  import opened BulkUpdate
  import opened RuleIds
  import opened RuleOrder
  import opened RuleSpecs
  import opened Rendering

  /** Labels that mark, and select, the PrometheusRules of a level. */
  function Selector(level: Level): Labels {
    match level
    case NamespaceLevel(ns) =>
      map["alerting.kubesphere.io/rule_level" := "namespace", "alerting.kubesphere.io/owner_namespace" := ns]
    case ClusterLevel => map["alerting.kubesphere.io/rule_level" := "cluster"]
    case GlobalLevel => map["alerting.kubesphere.io/rule_level" := "global"]
  }

  function Resources(level: Level, owners: seq<OwnerReference>, specs: seq<Spec>): seq<Item> {
    seq(|specs|, i requires 0 <= i < |specs| => Item(Key(level, i), PrometheusRule(specs[i], Selector(level), owners)))
  }

  /** The namespace exists and is not being deleted; the other levels have none. */
  predicate Live(level: Level, w: World) {
    level.NamespaceLevel? ==> level.namespace in w.namespaces && !w.namespaces[level.namespace].terminating
  }

  function Owners(level: Level, w: World): seq<OwnerReference> {
    if level.NamespaceLevel? && level.namespace in w.namespaces then
      var ns := w.namespaces[level.namespace];
      [OwnerReference(ns.apiVersion, ns.kind, level.namespace, ns.uid)]
    else []
  }

  /** The PrometheusRules that the listed groups call for. */
  function Desired(enforcer: Enforcer, marshal: Marshal, level: Level, list: seq<SourceGroup>, w: World): Rules {
    ToMap(Resources(level, Owners(level, w), SplitGroups(marshal, SortedGroups(Render(enforcer, level, list)))))
  }

  // ----- What the desired set looks like -----

  lemma {:induction false} ToMapAt(items: seq<Item>, i: nat)
    requires forall a, b :: 0 <= a < b < |items| ==> items[a].key != items[b].key
    requires i < |items|
    ensures At(ToMap(items), items[i].key) == Some(items[i].rule)
  {
    if i < |items| - 1 {
      ToMapAt(items[..|items| - 1], i);
    }
  }

  lemma {:induction false} ToMapKeys(items: seq<Item>, k: ObjectKey)
    requires k in ToMap(items)
    ensures exists i :: 0 <= i < |items| && items[i] == Item(k, ToMap(items)[k])
  {
    var n := |items| - 1;
    if k == items[n].key {
      assert items[n] == Item(k, ToMap(items)[k]);
    } else {
      ToMapKeys(items[..n], k);
      var i :| 0 <= i < n && items[..n][i] == Item(k, ToMap(items[..n])[k]);
      assert items[i] == Item(k, ToMap(items)[k]);
    }
  }

  /** The object under `k` holds these groups, labels and owner references. */
  predicate Carries(rules: Rules, k: ObjectKey, groups: Spec, labels: Labels, owners: seq<OwnerReference>) {
    k in rules && rules[k].groups == groups && rules[k].labels == labels && rules[k].owners == owners
  }

  /** The i-th spec, and nothing else, is desired under the i-th name of the level, with the level's labels. */
  lemma ResourcesAt(level: Level, owners: seq<OwnerReference>, specs: seq<Spec>)
    ensures forall k :: k in ToMap(Resources(level, owners, specs)) ==>
      exists i :: 0 <= i < |specs| && k == Key(level, i)
    ensures forall i :: 0 <= i < |specs| ==>
      Carries(ToMap(Resources(level, owners, specs)), Key(level, i), specs[i], Selector(level), owners)
    ensures WellLabelled(ToMap(Resources(level, owners, specs)), Selector(level))
  {
    var items := Resources(level, owners, specs);
    forall a, b | 0 <= a < b < |items| ensures items[a].key != items[b].key {
      if items[a].key == items[b].key { NamesInjective(level, a, level, b); }
    }
    forall i | 0 <= i < |specs|
      ensures Carries(ToMap(items), Key(level, i), specs[i], Selector(level), owners)
    {
      ToMapAt(items, i);
    }
    forall k | k in ToMap(items)
      ensures Selected(k, ToMap(items)[k], Selector(level)) && exists i :: 0 <= i < |specs| && k == Key(level, i)
    {
      ToMapKeys(items, k);
      var i :| 0 <= i < |items| && items[i] == Item(k, ToMap(items)[k]);
    }
  }

  /** Order independence: every listing of the same groups asks for the same objects. */
  lemma DesiredIgnoresListingOrder(enforcer: Enforcer, marshal: Marshal, level: Level, w: World,
                                   a: seq<SourceGroup>, b: seq<SourceGroup>)
    requires Lists(w, level, a) && Lists(w, level, b)
    ensures Desired(enforcer, marshal, level, a, w) == Desired(enforcer, marshal, level, b, w)
    ensures Render(enforcer, level, a) == [] <==> Render(enforcer, level, b) == []
  {
    RenderIgnoresListingOrder(enforcer, level, a, b);
  }

  // ----- A reconcile whose calls succeed -----

  /** No object that the level's selector does not see sits under one of the level's names. */
  ghost predicate NamesAvailable(level: Level, rules: Rules) {
    forall i: nat :: Available(Key(level, i), At(rules, Key(level, i)), Selector(level))
  }

  ghost predicate Marshals(enforcer: Enforcer, marshal: Marshal, level: Level, list: seq<SourceGroup>) {
    forall g :: g in Render(enforcer, level, list) ==> marshal(g).Some?
  }

  /** Outcome for a given listing. */
  ghost predicate ReconciledFrom(enforcer: Enforcer, marshal: Marshal, level: Level, list: seq<SourceGroup>, w: World, w': World) {
    var desired := Desired(enforcer, marshal, level, list, w);
    if !AllHaveIds(level, w) then IdsAdded(level, w, w')
    else
      && w' == w.(rules := w'.rules)
      && if Render(enforcer, level, list) == [] then Replaced(w.rules, w'.rules, Selector(level), map[])
         else if !Live(level, w) || !Marshals(enforcer, marshal, level, list) then w' == w
         else if NoForeign(w.rules, Selector(level), desired) then Replaced(w.rules, w'.rules, Selector(level), desired)
         else Between(w.rules, w'.rules, Selector(level), desired)
  }

  ghost predicate Reconciled(enforcer: Enforcer, marshal: Marshal, level: Level, w: World, w': World) {
    exists list :: Lists(w, level, list) && ReconciledFrom(enforcer, marshal, level, list, w, w')
  }

  lemma SameRules(a: Rules, b: Rules)
    requires forall k :: At(a, k) == At(b, k)
    ensures a == b
  {
    assert forall k :: k in a <==> At(a, k).Some?;
    assert forall k :: k in b <==> At(b, k).Some?;
    assert forall k :: k in a ==> At(a, k).value == a[k];
    assert forall k :: k in b ==> At(b, k).value == b[k];
  }

  lemma NothingDesired(enforcer: Enforcer, marshal: Marshal, level: Level, list: seq<SourceGroup>, w: World)
    requires Render(enforcer, level, list) == []
    ensures Desired(enforcer, marshal, level, list, w) == map[]
  {}

  /** What one reconcile does when no id is missing: the selected objects are replaced by the desired ones. */
  lemma StepReplaces(enforcer: Enforcer, marshal: Marshal, level: Level, list: seq<SourceGroup>, w: World, w': World)
    requires forall g :: marshal(g).Some?
    requires Lists(w, level, list) && AllHaveIds(level, w) && Live(level, w)
    requires NoForeign(w.rules, Selector(level), Desired(enforcer, marshal, level, list, w))
    requires Reconciled(enforcer, marshal, level, w, w')
    ensures w' == w.(rules := w'.rules)
    ensures Replaced(w.rules, w'.rules, Selector(level), Desired(enforcer, marshal, level, list, w))
  {
    var l :| Lists(w, level, l) && ReconciledFrom(enforcer, marshal, level, l, w, w');
    DesiredIgnoresListingOrder(enforcer, marshal, level, w, l, list);
    if Render(enforcer, level, l) == [] {
      NothingDesired(enforcer, marshal, level, l, w);
    }
  }

  /** A settled store stays as it is. */
  lemma ReplacedStable(before: Rules, after: Rules, selector: Labels, desired: Rules)
    requires SelectedRules(before, selector) == desired && Replaced(before, after, selector, desired)
    ensures after == before
  {
    forall k ensures At(after, k) == At(before, k) {
      assert At(desired, k) == if k in before && Selected(k, before[k], selector) then At(before, k) else None;
    }
    SameRules(after, before);
  }

  lemma DesiredNames(enforcer: Enforcer, marshal: Marshal, level: Level, list: seq<SourceGroup>, w: World)
    ensures WellLabelled(Desired(enforcer, marshal, level, list, w), Selector(level))
    ensures NamesAvailable(level, w.rules) ==> NoForeign(w.rules, Selector(level), Desired(enforcer, marshal, level, list, w))
  {
    ResourcesAt(level, Owners(level, w), SplitGroups(marshal, SortedGroups(Render(enforcer, level, list))));
  }

  /** The store holds, under the level's selector, exactly what the sources call for. */
  ghost predicate Settled(enforcer: Enforcer, marshal: Marshal, level: Level, w: World) {
    && AllHaveIds(level, w)
    && forall list :: Lists(w, level, list) ==>
         SelectedRules(w.rules, Selector(level)) == Desired(enforcer, marshal, level, list, w)
  }

  /** Neither the listings nor the desired set of a level depend on the stored PrometheusRules. */
  lemma RulesDoNotMatter(enforcer: Enforcer, marshal: Marshal, level: Level, list: seq<SourceGroup>, w: World, rules: Rules)
    ensures Lists(w.(rules := rules), level, list) <==> Lists(w, level, list)
    ensures Desired(enforcer, marshal, level, list, w.(rules := rules)) == Desired(enforcer, marshal, level, list, w)
  {
    var v := w.(rules := rules);
    assert v.sources == w.sources && Owners(level, v) == Owners(level, w);
  }

  /** However a reconcile ends, with no id missing: every object is as before, or as desired and not somebody else's. */
  lemma StepIsBetween(enforcer: Enforcer, marshal: Marshal, level: Level, list: seq<SourceGroup>, w: World, w': World)
    requires Lists(w, level, list) && AllHaveIds(level, w)
    requires Reconciled(enforcer, marshal, level, w, w')
    ensures w' == w.(rules := w'.rules)
    ensures Between(w.rules, w'.rules, Selector(level), Desired(enforcer, marshal, level, list, w))
  {
    var l :| Lists(w, level, l) && ReconciledFrom(enforcer, marshal, level, l, w, w');
    DesiredIgnoresListingOrder(enforcer, marshal, level, w, l, list);
    if Render(enforcer, level, l) == [] {
      NothingDesired(enforcer, marshal, level, l, w);
    }
  }

  lemma ForeignUnsettles(enforcer: Enforcer, marshal: Marshal, level: Level, list: seq<SourceGroup>, w: World, k: ObjectKey)
    requires Lists(w, level, list) && k in Desired(enforcer, marshal, level, list, w)
    requires !Available(k, At(w.rules, k), Selector(level))
    ensures !Settled(enforcer, marshal, level, w)
  {
    assert k !in SelectedRules(w.rules, Selector(level));
  }

  lemma ReplacedSettles(enforcer: Enforcer, marshal: Marshal, level: Level, list: seq<SourceGroup>, w: World, w': World)
    requires Lists(w, level, list) && AllHaveIds(level, w) && w' == w.(rules := w'.rules)
    requires Replaced(w.rules, w'.rules, Selector(level), Desired(enforcer, marshal, level, list, w))
    ensures Settled(enforcer, marshal, level, w')
  {
    DesiredNames(enforcer, marshal, level, list, w);
    ReplacedSelects(w.rules, w'.rules, Selector(level), Desired(enforcer, marshal, level, list, w));
    forall l | Lists(w', level, l)
      ensures SelectedRules(w'.rules, Selector(level)) == Desired(enforcer, marshal, level, l, w')
    {
      RulesDoNotMatter(enforcer, marshal, level, l, w, w'.rules);
      DesiredIgnoresListingOrder(enforcer, marshal, level, w, l, list);
    }
  }

  /** With no id missing one reconcile settles the level if and only if no foreign object has one of the desired names;
      foreign objects under names that are not called for do not matter. */
  lemma SettlesExactly(enforcer: Enforcer, marshal: Marshal, level: Level, list: seq<SourceGroup>, w: World, w': World)
    requires forall g :: marshal(g).Some?
    requires Lists(w, level, list) && AllHaveIds(level, w) && Live(level, w)
    requires Reconciled(enforcer, marshal, level, w, w')
    ensures w' == w.(rules := w'.rules)
    ensures Settled(enforcer, marshal, level, w') <==> NoForeign(w.rules, Selector(level), Desired(enforcer, marshal, level, list, w))
  {
    var desired := Desired(enforcer, marshal, level, list, w);
    StepIsBetween(enforcer, marshal, level, list, w, w');
    if NoForeign(w.rules, Selector(level), desired) {
      StepReplaces(enforcer, marshal, level, list, w, w');
      ReplacedSettles(enforcer, marshal, level, list, w, w');
    } else {
      var k :| k in desired && !Available(k, At(w.rules, k), Selector(level));
      RulesDoNotMatter(enforcer, marshal, level, list, w, w'.rules);
      ForeignUnsettles(enforcer, marshal, level, list, w', k);
    }
  }

  lemma SettledIsFixed(enforcer: Enforcer, marshal: Marshal, level: Level, w: World, w': World)
    requires forall g :: marshal(g).Some?
    requires Live(level, w) && Settled(enforcer, marshal, level, w)
    requires Reconciled(enforcer, marshal, level, w, w')
    ensures w' == w
  {
    var list :| Lists(w, level, list) && ReconciledFrom(enforcer, marshal, level, list, w, w');
    var desired := Desired(enforcer, marshal, level, list, w);
    assert forall k :: k in desired ==> At(w.rules, k) == Some(desired[k]);
    StepReplaces(enforcer, marshal, level, list, w, w');
    ReplacedStable(w.rules, w'.rules, Selector(level), desired);
  }

  /** Of two worlds before and after a reconcile, the first with every id in place. */
  ghost function Identified(level: Level, w0: World, w1: World): World {
    if AllHaveIds(level, w0) then w0 else w1
  }

  /** Convergence: from any store, two reconciles bring the level's PrometheusRules to what its sources call for, with
      every rule of an enabled group identified, if and only if no foreign object has a name they call for;
      and then a third changes nothing at all. */
  lemma Converges(enforcer: Enforcer, marshal: Marshal, level: Level, list: seq<SourceGroup>, w0: World, w1: World, w2: World, w3: World)
    requires forall g :: marshal(g).Some?
    requires Live(level, w0) && Lists(Identified(level, w0, w1), level, list)
    requires Reconciled(enforcer, marshal, level, w0, w1)
    requires Reconciled(enforcer, marshal, level, w1, w2)
    requires Reconciled(enforcer, marshal, level, w2, w3)
    ensures Settled(enforcer, marshal, level, w2) <==>
      NoForeign(w0.rules, Selector(level), Desired(enforcer, marshal, level, list, Identified(level, w0, w1)))
    ensures Settled(enforcer, marshal, level, w2) ==> w3 == w2
  {
    if AllHaveIds(level, w0) {
      SettlesExactly(enforcer, marshal, level, list, w0, w1);
      RulesDoNotMatter(enforcer, marshal, level, list, w0, w1.rules);
      SettlesExactly(enforcer, marshal, level, list, w1, w2);
      StepIsBetween(enforcer, marshal, level, list, w0, w1);
      DesiredNames(enforcer, marshal, level, list, w0);
      BetweenKeepsForeign(w0.rules, w1.rules, Selector(level), Desired(enforcer, marshal, level, list, w0));
    } else {
      IdsSettle(level, w0, w1);
      SettlesExactly(enforcer, marshal, level, list, w1, w2);
    }
    if Settled(enforcer, marshal, level, w2) {
      SettledIsFixed(enforcer, marshal, level, w2, w3);
    }
  }

  // ----- What a settled level amounts to -----

  /** Whose objects a level selects, label by label. */
  lemma SelectedExactly(level: Level, k: ObjectKey, r: PrometheusRule)
    ensures Selected(k, r, Selector(level)) <==>
      && k.namespace == "kubesphere-monitoring-system"
      && LabelAt(r.labels, "alerting.kubesphere.io/rule_level")
           == Some(if level.NamespaceLevel? then "namespace" else if level.ClusterLevel? then "cluster" else "global")
      && (level.NamespaceLevel? ==> LabelAt(r.labels, "alerting.kubesphere.io/owner_namespace") == Some(level.namespace))
  {
    var l, o := "alerting.kubesphere.io/rule_level", "alerting.kubesphere.io/owner_namespace";
    assert l[23] != o[23];
    assert forall x :: x in Selector(level) <==> x == l || (level.NamespaceLevel? && x == o);
    assert l in Selector(level) && (level.NamespaceLevel? ==> o in Selector(level));
  }

  /** An enabled source group of the level. */
  predicate EnabledSource(level: Level, w: World, s: SourceGroup) {
    SourceKey(level, s.name) in w.sources && w.sources[SourceKey(level, s.name)] == s && s.enabled
  }

  /** One reference to the level's namespace, or none at the other levels. */
  predicate OwnedBy(level: Level, w: World, owners: seq<OwnerReference>) {
    if level.NamespaceLevel? && level.namespace in w.namespaces then
      && |owners| == 1 && owners[0].name == level.namespace
      && owners[0].apiVersion == w.namespaces[level.namespace].apiVersion
      && owners[0].kind == w.namespaces[level.namespace].kind
      && owners[0].uid == w.namespaces[level.namespace].uid
    else owners == []
  }

  /** The level's objects are the specs `stored` under its names from 0 on, with its labels and owner reference. */
  ghost predicate ObjectsAre(level: Level, w: World, stored: seq<Spec>) {
    && (forall k :: k in w.rules && Selected(k, w.rules[k], Selector(level)) ==> exists i :: 0 <= i < |stored| && k == Key(level, i))
    && (forall i :: 0 <= i < |stored| ==>
          exists owners :: OwnedBy(level, w, owners) && Carries(w.rules, Key(level, i), stored[i], Selector(level), owners))
  }

  ghost predicate Rendered(enforcer: Enforcer, level: Level, w: World, g: RuleGroup) {
    exists s :: EnabledSource(level, w, s) && RendersTo(enforcer, level, s, g)
  }

  /** In the order of their names, exactly what the level's enabled source groups render to. */
  ghost predicate GroupsAre(enforcer: Enforcer, level: Level, w: World, groups: seq<RuleGroup>) {
    && Sorted(groups) && DistinctNames(groups)
    && forall g :: g in groups <==> Rendered(enforcer, level, w, g)
  }

  ghost predicate Deployed(enforcer: Enforcer, marshal: Marshal, level: Level, w: World, stored: seq<Spec>) {
    ObjectsAre(level, w, stored) && GroupsAre(enforcer, level, w, Flatten(stored)) && Greedy(marshal, Flatten(stored), stored)
  }

  ghost predicate Identifies(level: Level, w: World) {
    forall s :: EnabledSource(level, w, s) ==> forall j :: 0 <= j < |s.rules| ==> "rule_id" in s.rules[j].labels
  }

  lemma IdentifiesIs(level: Level, w: World)
    ensures Identifies(level, w) <==> AllHaveIds(level, w)
  {
    if Identifies(level, w) {
      forall k | k in w.sources && Enabled(k, w.sources[k], level) ensures HasIds(w.sources[k]) {
        assert k == SourceKey(level, w.sources[k].name);
        assert EnabledSource(level, w, w.sources[k]);
      }
    }
    if AllHaveIds(level, w) {
      forall s | EnabledSource(level, w, s) ensures forall j :: 0 <= j < |s.rules| ==> "rule_id" in s.rules[j].labels {
        assert Enabled(SourceKey(level, s.name), s, level);
        assert HasIds(s);
      }
    }
  }

  lemma OwnedByOwners(level: Level, w: World, owners: seq<OwnerReference>)
    ensures OwnedBy(level, w, owners) <==> owners == Owners(level, w)
  {}

  lemma RenderedSources(enforcer: Enforcer, level: Level, list: seq<SourceGroup>, w: World, g: RuleGroup)
    requires Lists(w, level, list)
    ensures g in Render(enforcer, level, list) <==> Rendered(enforcer, level, w, g)
  {
    RenderExactly(enforcer, level, list, g);
    assert forall s :: s in list <==> EnabledSource(level, w, s);
  }

  lemma SortedRendering(enforcer: Enforcer, level: Level, list: seq<SourceGroup>, w: World)
    requires Lists(w, level, list)
    ensures GroupsAre(enforcer, level, w, SortedGroups(Render(enforcer, level, list)))
  {
    var rendered := Render(enforcer, level, list);
    RenderDistinct(enforcer, level, list);
    SortedGroupsSorted(rendered);
    DistinctPermutation(rendered, SortedGroups(rendered));
    forall g ensures g in SortedGroups(rendered) <==> Rendered(enforcer, level, w, g) {
      RenderedSources(enforcer, level, list, w, g);
    }
  }

  /** That determines the groups: they are the sorted rendering of any listing. */
  lemma GroupsAreRendering(enforcer: Enforcer, level: Level, list: seq<SourceGroup>, w: World, flat: seq<RuleGroup>)
    requires Lists(w, level, list)
    ensures flat == SortedGroups(Render(enforcer, level, list)) <==> GroupsAre(enforcer, level, w, flat)
  {
    SortedRendering(enforcer, level, list, w);
    if GroupsAre(enforcer, level, w, flat) {
      StrictOrderUnique(flat, SortedGroups(Render(enforcer, level, list)));
    }
  }

  /** Objects named, labelled and owned as the resources are the resources. */
  lemma StoredAreResources(level: Level, w: World, stored: seq<Spec>)
    ensures SelectedRules(w.rules, Selector(level)) == ToMap(Resources(level, Owners(level, w), stored)) <==>
      && (forall k :: k in w.rules && Selected(k, w.rules[k], Selector(level)) ==> exists i :: 0 <= i < |stored| && k == Key(level, i))
      && (forall i :: 0 <= i < |stored| ==> Carries(w.rules, Key(level, i), stored[i], Selector(level), Owners(level, w)))
  {
    var m, current := ToMap(Resources(level, Owners(level, w), stored)), SelectedRules(w.rules, Selector(level));
    ResourcesAt(level, Owners(level, w), stored);
    if current == m {
      forall i | 0 <= i < |stored| ensures Carries(w.rules, Key(level, i), stored[i], Selector(level), Owners(level, w)) {
        assert Key(level, i) in current;
      }
      forall k | k in w.rules && Selected(k, w.rules[k], Selector(level)) ensures exists i :: 0 <= i < |stored| && k == Key(level, i) {
        assert k in m;
      }
    }
    if (forall k :: k in w.rules && Selected(k, w.rules[k], Selector(level)) ==> exists i :: 0 <= i < |stored| && k == Key(level, i))
      && (forall i :: 0 <= i < |stored| ==> Carries(w.rules, Key(level, i), stored[i], Selector(level), Owners(level, w)))
    {
      forall k ensures At(current, k) == At(m, k) {
        if k in current {
          var i :| 0 <= i < |stored| && k == Key(level, i);
          assert Carries(m, Key(level, i), stored[i], Selector(level), Owners(level, w));
        }
        if k in m {
          var i :| 0 <= i < |stored| && k == Key(level, i);
          assert Carries(m, Key(level, i), stored[i], Selector(level), Owners(level, w));
        }
      }
      SameRules(current, m);
    }
  }

  lemma OwnedStored(level: Level, w: World, k: ObjectKey, spec: Spec)
    ensures Carries(w.rules, k, spec, Selector(level), Owners(level, w)) <==>
      exists owners :: OwnedBy(level, w, owners) && Carries(w.rules, k, spec, Selector(level), owners)
  {
    OwnedByOwners(level, w, Owners(level, w));
    if owners :| OwnedBy(level, w, owners) && Carries(w.rules, k, spec, Selector(level), owners) {
      OwnedByOwners(level, w, owners);
    }
  }

  lemma ObjectsAreExactly(level: Level, w: World, stored: seq<Spec>)
    ensures ObjectsAre(level, w, stored) <==>
      SelectedRules(w.rules, Selector(level)) == ToMap(Resources(level, Owners(level, w), stored))
  {
    StoredAreResources(level, w, stored);
    forall i | 0 <= i < |stored|
      ensures Carries(w.rules, Key(level, i), stored[i], Selector(level), Owners(level, w)) <==>
        exists owners :: OwnedBy(level, w, owners) && Carries(w.rules, Key(level, i), stored[i], Selector(level), owners)
    {
      OwnedStored(level, w, Key(level, i), stored[i]);
    }
  }

  lemma DeployedStored(enforcer: Enforcer, marshal: Marshal, level: Level, list: seq<SourceGroup>, w: World, stored: seq<Spec>)
    requires Lists(w, level, list)
    ensures Deployed(enforcer, marshal, level, w, stored) <==>
      && stored == SplitGroups(marshal, SortedGroups(Render(enforcer, level, list)))
      && SelectedRules(w.rules, Selector(level)) == ToMap(Resources(level, Owners(level, w), stored))
  {
    var sorted := SortedGroups(Render(enforcer, level, list));
    ObjectsAreExactly(level, w, stored);
    GroupsAreRendering(enforcer, level, list, w, Flatten(stored));
    GreedyExactly(marshal, sorted, stored);
  }

  /** A settled level, said of sources and objects alone: every rule is identified, and the convertible rules of the
      enabled groups, and nothing else, are in the level's objects, each group whole, in order and within budget. */
  lemma SettledExactly(enforcer: Enforcer, marshal: Marshal, level: Level, list: seq<SourceGroup>, w: World)
    requires Lists(w, level, list)
    ensures Settled(enforcer, marshal, level, w) <==>
      Identifies(level, w) && exists stored :: Deployed(enforcer, marshal, level, w, stored)
  {
    IdentifiesIs(level, w);
    var split := SplitGroups(marshal, SortedGroups(Render(enforcer, level, list)));
    assert Desired(enforcer, marshal, level, list, w) == ToMap(Resources(level, Owners(level, w), split));
    if Settled(enforcer, marshal, level, w) {
      DeployedStored(enforcer, marshal, level, list, w, split);
    }
    if stored :| AllHaveIds(level, w) && Deployed(enforcer, marshal, level, w, stored) {
      DeployedStored(enforcer, marshal, level, list, w, stored);
      forall l | Lists(w, level, l)
        ensures SelectedRules(w.rules, Selector(level)) == Desired(enforcer, marshal, level, l, w)
      {
        DesiredIgnoresListingOrder(enforcer, marshal, level, w, l, list);
      }
    }
  }

  // ----- A reconcile under arbitrary failures -----

  /** Only the level's own objects were touched: where something changed nothing foreign was, and what is there now
      carries the level's labels under one of the level's names. */
  ghost predicate RulesConfined(level: Level, before: Rules, after: Rules) {
    forall k :: At(after, k) != At(before, k) ==>
      && Available(k, At(before, k), Selector(level)) && Available(k, At(after, k), Selector(level))
      && (At(after, k).Some? ==> exists i: nat :: k == Key(level, i))
  }

  ghost predicate Confined(level: Level, w: World, w': World) {
    || IdsPartlyAdded(level, w, w')
    || (w' == w.(rules := w'.rules) && RulesConfined(level, w.rules, w'.rules))
  }

  lemma BetweenIsConfined(level: Level, owners: seq<OwnerReference>, specs: seq<Spec>, before: Rules, after: Rules)
    requires Between(before, after, Selector(level), ToMap(Resources(level, owners, specs)))
    ensures RulesConfined(level, before, after)
  {
    ResourcesAt(level, owners, specs);
    var desired := ToMap(Resources(level, owners, specs));
    forall k | At(after, k) != At(before, k)
      ensures Available(k, At(before, k), Selector(level)) && Available(k, At(after, k), Selector(level))
      ensures At(after, k).Some? ==> exists i: nat :: k == Key(level, i)
    {
      if At(after, k).Some? {
        assert k in desired;
      }
    }
  }

  lemma ReconciledIsConfined(enforcer: Enforcer, marshal: Marshal, level: Level, w: World, w': World)
    requires Reconciled(enforcer, marshal, level, w, w')
    ensures Confined(level, w, w')
  {
    var list :| Lists(w, level, list) && ReconciledFrom(enforcer, marshal, level, list, w, w');
    if AllHaveIds(level, w) {
      StepIsBetween(enforcer, marshal, level, list, w, w');
      BetweenIsConfined(level, Owners(level, w), SplitGroups(marshal, SortedGroups(Render(enforcer, level, list))), w.rules, w'.rules);
    }
  }

  /** Runs of one level, each failing anywhere or not at all, cannot move a foreign object. */
  lemma {:induction false} ForeignObjectStays(level: Level, ws: seq<World>, k: ObjectKey, i: nat)
    requires i < |ws| && forall j :: 0 <= j < |ws| - 1 ==> Confined(level, ws[j], ws[j + 1])
    requires AllHaveIds(level, ws[0]) && !Available(k, At(ws[0].rules, k), Selector(level))
    ensures ws[i] == ws[0].(rules := ws[i].rules) && At(ws[i].rules, k) == At(ws[0].rules, k)
  {
    if i > 0 {
      ForeignObjectStays(level, ws, k, i - 1);
      assert Confined(level, ws[i - 1], ws[i - 1 + 1]);
      if IdsPartlyAdded(level, ws[i - 1], ws[i]) {
        NothingPartlyAdded(level, ws[i - 1], ws[i]);
      }
    }
  }

  /** A foreign object under a desired name keeps the level from settling for ever: it survives every sequence of the
      level's runs, and the level is settled after none of them. */
  lemma ForeignObjectBlocks(enforcer: Enforcer, marshal: Marshal, level: Level, list: seq<SourceGroup>, ws: seq<World>, k: ObjectKey, i: nat)
    requires i < |ws| && forall j :: 0 <= j < |ws| - 1 ==> Confined(level, ws[j], ws[j + 1])
    requires Lists(ws[0], level, list) && AllHaveIds(level, ws[0])
    requires k in Desired(enforcer, marshal, level, list, ws[0]) && !Available(k, At(ws[0].rules, k), Selector(level))
    ensures At(ws[i].rules, k) == At(ws[0].rules, k) && !Settled(enforcer, marshal, level, ws[i])
  {
    ForeignObjectStays(level, ws, k, i);
    RulesDoNotMatter(enforcer, marshal, level, list, ws[0], ws[i].rules);
    ForeignUnsettles(enforcer, marshal, level, list, ws[i], k);
  }

  /** Whenever anything is rendered, the level's first name is called for. */
  lemma FirstNameDesired(enforcer: Enforcer, marshal: Marshal, level: Level, list: seq<SourceGroup>, w: World)
    requires Render(enforcer, level, list) != []
    ensures Key(level, 0) in Desired(enforcer, marshal, level, list, w)
  {
    var sorted := SortedGroups(Render(enforcer, level, list));
    assert |multiset(sorted)| == |sorted|;
    SplitIsGreedy(marshal, sorted);
    ResourcesAt(level, Owners(level, w), SplitGroups(marshal, sorted));
    assert |SplitGroups(marshal, sorted)| > 0;
  }

  /** The reconcile has objects to write and is stopped by a foreign one. */
  ghost predicate Blocked(enforcer: Enforcer, marshal: Marshal, level: Level, list: seq<SourceGroup>, w: World) {
    && Lists(w, level, list) && AllHaveIds(level, w)
    && Render(enforcer, level, list) != [] && Live(level, w) && Marshals(enforcer, marshal, level, list)
    && !NoForeign(w.rules, Selector(level), Desired(enforcer, marshal, level, list, w))
  }

  lemma BlockedIgnoresListingOrder(enforcer: Enforcer, marshal: Marshal, level: Level, w: World, a: seq<SourceGroup>, b: seq<SourceGroup>)
    requires Blocked(enforcer, marshal, level, a, w) && Lists(w, level, b)
    ensures Blocked(enforcer, marshal, level, b, w)
  {
    DesiredIgnoresListingOrder(enforcer, marshal, level, w, a, b);
    RenderIgnoresListingOrder(enforcer, level, a, b);
    forall g | g in Render(enforcer, level, b) ensures marshal(g).Some? {
      assert g in multiset(SortedGroups(Render(enforcer, level, b)));
      assert g in multiset(Render(enforcer, level, a));
    }
  }

  const EXAMPLE := SourceRule("a", StrVal("e"), "", "", map[RULE_ID := "1"], map[], false, [])

  lemma ExampleRenders(enforcer: Enforcer, g: SourceGroup)
    requires g.rules == [EXAMPLE]
    ensures Render(enforcer, ClusterLevel, [g]) != []
  {
    assert Convertible(enforcer, ClusterLevel, g.rules[0]);
    var r := RenderGroup(enforcer, ClusterLevel, g);
    RenderGroupExactly(enforcer, ClusterLevel, g, RuleGroup("", "", "", []));
    assert r.Some?;
    RenderGroupExactly(enforcer, ClusterLevel, g, r.value);
    RenderExactly(enforcer, ClusterLevel, [g], r.value);
  }

  /** One enabled group with one rule, and an unlabelled object under the first name of the cluster level. */
  const EXAMPLE_GROUP := SourceGroup("g", true, "", "", [EXAMPLE])
  const EXAMPLE_WORLD := World(map[SourceKey(ClusterLevel, "g") := EXAMPLE_GROUP],
                               map[Key(ClusterLevel, 0) := PrometheusRule([], map[], [])], map[])

  lemma ExampleLists()
    ensures Lists(EXAMPLE_WORLD, ClusterLevel, [EXAMPLE_GROUP]) && AllHaveIds(ClusterLevel, EXAMPLE_WORLD)
  {}

  lemma ExampleForeign()
    ensures !Available(Key(ClusterLevel, 0), At(EXAMPLE_WORLD.rules, Key(ClusterLevel, 0)), Selector(ClusterLevel))
  {
    assert "alerting.kubesphere.io/rule_level" in Selector(ClusterLevel);
  }

  lemma BetweenReflexive(rules: Rules, selector: Labels, desired: Rules)
    ensures Between(rules, rules, selector, desired)
  {}

  lemma BlockedStays(enforcer: Enforcer, marshal: Marshal, level: Level, list: seq<SourceGroup>, w: World)
    requires Blocked(enforcer, marshal, level, list, w)
    ensures Reconciled(enforcer, marshal, level, w, w)
  {
    BetweenReflexive(w.rules, Selector(level), Desired(enforcer, marshal, level, list, w));
    assert ReconciledFrom(enforcer, marshal, level, list, w, w);
  }

  lemma ForeignObjectExample(enforcer: Enforcer, marshal: Marshal) returns (list: seq<SourceGroup>, w: World, k: ObjectKey)
    requires forall g :: marshal(g).Some?
    ensures Blocked(enforcer, marshal, ClusterLevel, list, w)
    ensures k in Desired(enforcer, marshal, ClusterLevel, list, w) && !Available(k, At(w.rules, k), Selector(ClusterLevel))
    ensures Reconciled(enforcer, marshal, ClusterLevel, w, w)
  {
    list, w, k := [EXAMPLE_GROUP], EXAMPLE_WORLD, Key(ClusterLevel, 0);
    ExampleLists();
    ExampleForeign();
    ExampleRenders(enforcer, EXAMPLE_GROUP);
    FirstNameDesired(enforcer, marshal, ClusterLevel, list, w);
    BlockedStays(enforcer, marshal, ClusterLevel, list, w);
  }

  // ----- The code -----

  datatype Result = Result(requeue: bool, err: Option<ApiError>)

  /** Names the i-th spec after the level and i. */
  method NameSpecs(level: Level, owners: seq<OwnerReference>, specs: seq<Spec>) returns (items: seq<Item>)
    ensures items == Resources(level, owners, specs)
  {
    items := [];
    for i := 0 to |specs|
      invariant |items| == i
      invariant forall j :: 0 <= j < i ==> items[j] == Item(Key(level, j), PrometheusRule(specs[j], Selector(level), owners))
    {
      items := items + [Item(Key(level, i), PrometheusRule(specs[i], Selector(level), owners))];
    }
  }

  method MakePrometheusRuleResources(marshal: Marshal, groups: seq<RuleGroup>, level: Level, owners: seq<OwnerReference>)
    returns (r: Option<seq<Item>>)
    requires DistinctNames(groups)
    ensures r.None? <==> exists g :: g in groups && marshal(g).None?
    ensures r.Some? ==> r.value == Resources(level, owners, SplitGroups(marshal, SortedGroups(groups)))
  {
    var a := new RuleGroup[|groups|](i requires 0 <= i < |groups| => groups[i]);
    assert a[..] == groups;
    var specs := MakePrometheusRuleSpecs(marshal, a);
    SortUnique(groups, a[..]);
    DistinctPermutation(groups, a[..]);
    if specs.None? {
      return None;
    }
    var items := NameSpecs(level, owners, specs.value);
    return Some(items);
  }

  /** Nothing is rendered: every PrometheusRule of the level goes. */
  method Clear(server: Server, level: Level) returns (err: Option<ApiError>)
    modifies server
    ensures server.world == old(server.world).(rules := server.world.rules)
    ensures RulesConfined(level, old(server.world.rules), server.world.rules)
    ensures err.None? ==> Replaced(old(server.world.rules), server.world.rules, Selector(level), map[])
    ensures server.reliable ==> err.None?
  {
    ghost var before := server.world.rules;
    err := server.DeleteAllRules(Selector(level));
    RemovalIsConfined(level, before, server.world.rules);
  }

  lemma RemovalIsConfined(level: Level, before: Rules, after: Rules)
    requires after.Keys <= before.Keys && forall k :: k in after ==> after[k] == before[k]
    requires before.Keys - after.Keys <= SelectedRules(before, Selector(level)).Keys
    ensures RulesConfined(level, before, after)
  {
    forall k | At(after, k) != At(before, k)
      ensures Available(k, At(before, k), Selector(level)) && At(after, k).None?
    {
      assert k in before.Keys - after.Keys;
    }
  }

  /** What writing the desired objects with reliable calls comes to. */
  ghost predicate Applied(marshal: Marshal, level: Level, groups: seq<RuleGroup>, owners: seq<OwnerReference>,
                          before: Rules, after: Rules, r: Result)
  {
    var desired := ToMap(Resources(level, owners, SplitGroups(marshal, SortedGroups(groups))));
    if exists g :: g in groups && marshal(g).None? then after == before && !r.requeue && r.err.Some?
    else if NoForeign(before, Selector(level), desired) then
      Replaced(before, after, Selector(level), desired) && r == Result(false, None)
    else
      Between(before, after, Selector(level), desired) && r == Result(true, None)
  }

  lemma AppliedReconciles(enforcer: Enforcer, marshal: Marshal, level: Level, list: seq<SourceGroup>, w: World, w': World, r: Result)
    requires Lists(w, level, list) && AllHaveIds(level, w) && Live(level, w)
    requires Render(enforcer, level, list) != [] && w' == w.(rules := w'.rules)
    requires Applied(marshal, level, Render(enforcer, level, list), Owners(level, w), w.rules, w'.rules, r)
    ensures ReconciledFrom(enforcer, marshal, level, list, w, w')
    ensures r.requeue <==> Blocked(enforcer, marshal, level, list, w)
  {}

  /** The part of a reconcile that writes PrometheusRules. */
  method Apply(server: Server, marshal: Marshal, level: Level, groups: seq<RuleGroup>, owners: seq<OwnerReference>)
    returns (r: Result)
    requires DistinctNames(groups)
    modifies server
    ensures server.world == old(server.world).(rules := server.world.rules)
    ensures RulesConfined(level, old(server.world.rules), server.world.rules)
    ensures server.reliable ==> Applied(marshal, level, groups, owners, old(server.world.rules), server.world.rules, r)
  {
    var desired := MakePrometheusRuleResources(marshal, groups, level, owners);
    if desired.None? {
      return Result(false, Some(Other));
    }
    ResourcesAt(level, owners, SplitGroups(marshal, SortedGroups(groups)));
    var current, err := server.ListRules(Selector(level));
    if err.Some? {
      return Result(false, err);
    }
    ghost var before := server.world.rules;
    err := BulkUpdatePrometheusRules(server, Selector(level), current, desired.value);
    BetweenIsConfined(level, owners, SplitGroups(marshal, SortedGroups(groups)), before, server.world.rules);
    if err.Some? && err.value in {Conflict, AlreadyExists} {
      return Result(true, None);
    }
    return Result(false, err);
  }

  /** The owner references for a level's objects; none, and no error either, when its namespace is gone or going. */
  method FindOwners(server: Server, level: Level) returns (owners: Option<seq<OwnerReference>>, err: Option<ApiError>)
    ensures owners.Some? ==> Live(level, server.world) && owners.value == Owners(level, server.world)
    ensures owners.Some? ==> OwnedBy(level, server.world, owners.value)
    ensures owners.Some? && level.NamespaceLevel? ==>
      level.namespace in server.world.namespaces && !server.world.namespaces[level.namespace].terminating
    ensures server.reliable && owners.None? ==>
      && level.NamespaceLevel?
      && (level.namespace in server.world.namespaces ==> server.world.namespaces[level.namespace].terminating)
    ensures server.reliable ==> err.None? && (owners.Some? <==> Live(level, server.world))
  {
    if !level.NamespaceLevel? {
      return Some([]), None;
    }
    var ns;
    ns, err := server.GetNamespace(level.namespace);
    if err.Some? {
      return None, if err.value == NotFound then None else err;
    }
    if ns.value.terminating {
      return None, None;
    }
    owners := Some([OwnerReference(ns.value.apiVersion, ns.value.kind, level.namespace, ns.value.uid)]);
  }

  /** A reconcile from the point where no id is missing. */
  method ReconcileRules(server: Server, enforcer: Enforcer, marshal: Marshal, level: Level, list: seq<SourceGroup>)
    returns (r: Result)
    requires Lists(server.world, level, list) && AllHaveIds(level, server.world)
    modifies server
    ensures server.world == old(server.world).(rules := server.world.rules)
    ensures RulesConfined(level, old(server.world.rules), server.world.rules)
    ensures server.reliable ==> ReconciledFrom(enforcer, marshal, level, list, old(server.world), server.world)
    ensures server.reliable ==> (r.requeue <==> Blocked(enforcer, marshal, level, list, old(server.world)))
  {
    var groups := MakePrometheusRuleGroups(enforcer, level, list);
    if |groups| == 0 {
      var err := Clear(server, level);
      return Result(false, err);
    }
    var owners, err := FindOwners(server, level);
    if owners.None? {
      return Result(false, err);
    }
    RenderDistinct(enforcer, level, list);
    ghost var w := server.world;
    r := Apply(server, marshal, level, groups, owners.value);
    if server.reliable {
      AppliedReconciles(enforcer, marshal, level, list, w, server.world, r);
    }
  }

  method Reconcile(server: Server, enforcer: Enforcer, marshal: Marshal, level: Level) returns (r: Result)
    modifies server
    ensures Confined(level, old(server.world), server.world)
    ensures server.reliable ==> Reconciled(enforcer, marshal, level, old(server.world), server.world)
    ensures server.reliable ==> (r.requeue <==> exists list :: Blocked(enforcer, marshal, level, list, old(server.world)))
  {
    ghost var w := server.world;
    var list, err := server.ListSources(level);
    if err.Some? {
      return Result(false, err);
    }
    var updated;
    updated, err := AddRuleIds(server, level, list);
    if err.Some? {
      return Result(false, err);
    }
    if updated {
      assert server.reliable ==> ReconciledFrom(enforcer, marshal, level, list, w, server.world);
      return Result(false, None);
    }
    NothingToAdd(level, w, server.world);
    r := ReconcileRules(server, enforcer, marshal, level, list);
    if l :| Blocked(enforcer, marshal, level, l, w) {
      BlockedIgnoresListingOrder(enforcer, marshal, level, w, l, list);
    }
  }
}
