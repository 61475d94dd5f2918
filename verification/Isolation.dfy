/** The three controllers, and different namespaces, do not interfere. */
module Isolation {
  import opened Text
  import opened AlertTypes
  import opened ObjectNames
  import opened ApiServer
  import opened BulkUpdate
  import opened RuleIds
  import opened Rendering
  import opened Reconciler

  /** No object is selected by two levels. */
  lemma SelectorsDisjoint(a: Level, b: Level, k: ObjectKey, r: PrometheusRule)
    requires Selected(k, r, Selector(a)) && Selected(k, r, Selector(b))
    ensures a == b
  {
    var l := "alerting.kubesphere.io/rule_level";
    assert l in Selector(a) && l in Selector(b);
    if a.NamespaceLevel? {
      var o := "alerting.kubesphere.io/owner_namespace";
      assert o in Selector(a);
      assert Selector(a)[l][0] == 'n';
      assert b.NamespaceLevel?;
      assert o in Selector(b);
    } else {
      assert Selector(a)[l][0] == Tag(a);
      assert Selector(b)[l][0] == Tag(b);
    }
  }

  /** Whatever fails and wherever two runs stop, they have not both changed the same object. */
  lemma WritesDisjoint(a: Level, b: Level, rules: Rules, after: Rules, after': Rules, k: ObjectKey)
    requires a != b && RulesConfined(a, rules, after) && RulesConfined(b, rules, after')
    ensures At(after, k) == At(rules, k) || At(after', k) == At(rules, k)
  {
    if At(after, k) != At(rules, k) && At(after', k) != At(rules, k) {
      if k in rules {
        SelectorsDisjoint(a, b, k, rules[k]);
      } else {
        var i: nat :| k == Key(a, i);
        var j: nat :| k == Key(b, j);
        NamesInjective(a, i, b, j);
      }
    }
  }

  // ----- Successful runs commute -----

  /** The one store that `Replaced` allows. */
  function Replace(rules: Rules, selector: Labels, desired: Rules): Rules {
    map k | k in rules.Keys + desired.Keys && (k in desired || !Selected(k, rules[k], selector)) ::
      if k in desired then desired[k] else rules[k]
  }

  lemma ReplaceMeets(rules: Rules, selector: Labels, desired: Rules)
    ensures Replaced(rules, Replace(rules, selector, desired), selector, desired)
  {}

  lemma ReplacedIs(rules: Rules, after: Rules, selector: Labels, desired: Rules)
    requires Replaced(rules, after, selector, desired)
    ensures after == Replace(rules, selector, desired)
  {}

  /** `desired` lives under the level's names and carries its labels. */
  ghost predicate Belongs(level: Level, desired: Rules) {
    && WellLabelled(desired, Selector(level))
    && forall k :: k in desired ==> exists i: nat :: k == Key(level, i)
  }

  lemma OneOwner(a: Level, b: Level, rules: Rules, da: Rules, db: Rules, k: ObjectKey)
    requires a != b && NamesAvailable(a, rules) && Belongs(a, da) && Belongs(b, db) && k in da
    ensures k !in db && !Selected(k, da[k], Selector(b))
    ensures k in rules ==> !Selected(k, rules[k], Selector(b))
  {
    var i: nat :| k == Key(a, i);
    if k in db {
      var j: nat :| k == Key(b, j);
      NamesInjective(a, i, b, j);
    }
    if Selected(k, da[k], Selector(b)) { SelectorsDisjoint(a, b, k, da[k]); }
    assert Available(Key(a, i), At(rules, Key(a, i)), Selector(a));
    if k in rules && Selected(k, rules[k], Selector(b)) { SelectorsDisjoint(a, b, k, rules[k]); }
  }

  /** Two replacements commute at a key that belongs to one side, or to neither. */
  lemma ReplaceCommutesAt(sa: Labels, sb: Labels, rules: Rules, da: Rules, db: Rules, k: ObjectKey)
    requires k in da ==> k !in db && !Selected(k, da[k], sb) && (k in rules ==> !Selected(k, rules[k], sb))
    requires k in db ==> !Selected(k, db[k], sa) && (k in rules ==> !Selected(k, rules[k], sa))
    ensures At(Replace(Replace(rules, sa, da), sb, db), k) == At(Replace(Replace(rules, sb, db), sa, da), k)
  {}

  lemma ReplaceCommutes(a: Level, b: Level, rules: Rules, da: Rules, db: Rules, sa: Labels, sb: Labels)
    requires a != b && NamesAvailable(a, rules) && NamesAvailable(b, rules) && Belongs(a, da) && Belongs(b, db)
    requires sa == Selector(a) && sb == Selector(b)
    ensures Replace(Replace(rules, sa, da), sb, db) == Replace(Replace(rules, sb, db), sa, da)
  {
    var ab := Replace(Replace(rules, sa, da), sb, db);
    var ba := Replace(Replace(rules, sb, db), sa, da);
    forall k ensures At(ab, k) == At(ba, k) {
      if k in da { OneOwner(a, b, rules, da, db, k); }
      if k in db { OneOwner(b, a, rules, db, da, k); }
      ReplaceCommutesAt(sa, sb, rules, da, db, k);
    }
    SameRules(ab, ba);
  }

  lemma ReplaceKeepsNames(a: Level, b: Level, rules: Rules, da: Rules)
    requires a != b && NamesAvailable(a, rules) && NamesAvailable(b, rules) && Belongs(a, da)
    ensures NamesAvailable(a, Replace(rules, Selector(a), da)) && NamesAvailable(b, Replace(rules, Selector(a), da))
  {
    var r := Replace(rules, Selector(a), da);
    forall i: nat ensures Available(Key(b, i), At(r, Key(b, i)), Selector(b)) {
      assert Available(Key(b, i), At(rules, Key(b, i)), Selector(b));
      if Key(b, i) in da {
        var j: nat :| Key(b, i) == Key(a, j);
        NamesInjective(b, i, a, j);
      }
    }
    forall i: nat ensures Available(Key(a, i), At(r, Key(a, i)), Selector(a)) {
      assert Available(Key(a, i), At(rules, Key(a, i)), Selector(a));
    }
  }

  lemma DesiredBelongs(enforcer: Enforcer, marshal: Marshal, level: Level, list: seq<SourceGroup>, w: World)
    ensures Belongs(level, Desired(enforcer, marshal, level, list, w))
  {
    ResourcesAt(level, Owners(level, w), RuleSpecs.SplitGroups(marshal, RuleOrder.SortedGroups(Render(enforcer, level, list))));
  }

  /** What a successful run of a level does to the stored rules, worked out from everything else. */
  datatype Plan = Plan(acts: bool, selector: Labels, desired: Rules) {
    function Run(rules: Rules): Rules {
      if acts then Replace(rules, selector, desired) else rules
    }
  }

  ghost function PlanOf(enforcer: Enforcer, marshal: Marshal, level: Level, list: seq<SourceGroup>, w: World): Plan {
    Plan(AllHaveIds(level, w) && (Render(enforcer, level, list) == [] || Live(level, w)),
         Selector(level), Desired(enforcer, marshal, level, list, w))
  }

  ghost predicate PlanFor(level: Level, plan: Plan) {
    plan.selector == Selector(level) && Belongs(level, plan.desired)
  }

  lemma PlanOfIsFor(enforcer: Enforcer, marshal: Marshal, level: Level, list: seq<SourceGroup>, w: World)
    ensures PlanFor(level, PlanOf(enforcer, marshal, level, list, w))
  {
    DesiredBelongs(enforcer, marshal, level, list, w);
  }

  lemma PlansCommute(a: Level, b: Level, p: Plan, q: Plan, rules: Rules)
    requires a != b && NamesAvailable(a, rules) && NamesAvailable(b, rules) && PlanFor(a, p) && PlanFor(b, q)
    ensures q.Run(p.Run(rules)) == p.Run(q.Run(rules))
  {
    ReplaceCommutes(a, b, rules, p.desired, q.desired, p.selector, q.selector);
  }

  lemma PlanKeepsNames(a: Level, b: Level, p: Plan, rules: Rules)
    requires a != b && NamesAvailable(a, rules) && NamesAvailable(b, rules) && PlanFor(a, p)
    ensures NamesAvailable(a, p.Run(rules)) && NamesAvailable(b, p.Run(rules))
  {
    ReplaceKeepsNames(a, b, rules, p.desired);
  }

  /** A successful run: ids go to the level's own sources, the plan is carried out on the rules. */
  ghost predicate RunEffect(plan: Plan, level: Level, w: World, w': World) {
    && w'.namespaces == w.namespaces
    && w'.rules == plan.Run(w.rules)
    && IdsAdded(level, w, w.(sources := w'.sources))
  }

  lemma NothingAdded(level: Level, w: World)
    requires AllHaveIds(level, w)
    ensures IdsAdded(level, w, w)
  {}

  lemma ReconciledHasEffect(enforcer: Enforcer, marshal: Marshal, level: Level, list: seq<SourceGroup>, w: World, w': World)
    requires forall g :: marshal(g).Some?
    requires NamesAvailable(level, w.rules) && ReconciledFrom(enforcer, marshal, level, list, w, w')
    ensures RunEffect(PlanOf(enforcer, marshal, level, list, w), level, w, w')
  {
    if AllHaveIds(level, w) {
      var desired := Desired(enforcer, marshal, level, list, w);
      DesiredNames(enforcer, marshal, level, list, w);
      NothingAdded(level, w);
      assert w.(sources := w'.sources) == w;
      if Render(enforcer, level, list) == [] {
        NothingDesired(enforcer, marshal, level, list, w);
        ReplacedIs(w.rules, w'.rules, Selector(level), desired);
      } else if Live(level, w) {
        ReplacedIs(w.rules, w'.rules, Selector(level), desired);
      }
    } else {
      assert w.(sources := w'.sources) == w';
    }
  }

  /** The listing a successful run worked from, and the plan it carried out. */
  lemma PlanOfRun(enforcer: Enforcer, marshal: Marshal, level: Level, w: World, w': World)
    returns (list: seq<SourceGroup>, plan: Plan)
    requires forall g :: marshal(g).Some?
    requires NamesAvailable(level, w.rules) && Reconciled(enforcer, marshal, level, w, w')
    ensures Lists(w, level, list) && plan == PlanOf(enforcer, marshal, level, list, w)
    ensures PlanFor(level, plan) && RunEffect(plan, level, w, w')
  {
    list :| Lists(w, level, list) && ReconciledFrom(enforcer, marshal, level, list, w, w');
    plan := PlanOf(enforcer, marshal, level, list, w);
    ReconciledHasEffect(enforcer, marshal, level, list, w, w');
    PlanOfIsFor(enforcer, marshal, level, list, w);
  }

  lemma EffectIsReconciled(enforcer: Enforcer, marshal: Marshal, level: Level, list: seq<SourceGroup>, w: World, w': World)
    requires forall g :: marshal(g).Some?
    requires NamesAvailable(level, w.rules) && Lists(w, level, list)
    requires RunEffect(PlanOf(enforcer, marshal, level, list, w), level, w, w')
    ensures Reconciled(enforcer, marshal, level, w, w')
  {
    if AllHaveIds(level, w) {
      NothingToAdd(level, w, w.(sources := w'.sources));
      assert w' == w.(rules := w'.rules);
      var desired := Desired(enforcer, marshal, level, list, w);
      DesiredNames(enforcer, marshal, level, list, w);
      if Render(enforcer, level, list) == [] {
        NothingDesired(enforcer, marshal, level, list, w);
        ReplaceMeets(w.rules, Selector(level), desired);
      } else if Live(level, w) {
        ReplaceMeets(w.rules, Selector(level), desired);
      }
    } else {
      assert w.(sources := w'.sources) == w';
    }
    assert ReconciledFrom(enforcer, marshal, level, list, w, w');
  }

  /** The part of the state a level's run reads besides the stored rules. */
  ghost predicate SameView(level: Level, w: World, v: World) {
    && w.namespaces == v.namespaces
    && (forall k: SourceKey :: k.level == level ==> (k in w.sources <==> k in v.sources))
    && (forall k: SourceKey :: k.level == level && k in w.sources ==> w.sources[k] == v.sources[k])
  }

  lemma ViewDecides(enforcer: Enforcer, marshal: Marshal, level: Level, list: seq<SourceGroup>, w: World, v: World)
    requires SameView(level, w, v) && Lists(w, level, list)
    ensures Lists(v, level, list) && EnabledKeys(level, v) == EnabledKeys(level, w)
    ensures PlanOf(enforcer, marshal, level, list, v) == PlanOf(enforcer, marshal, level, list, w)
  {
    assert AllHaveIds(level, v) <==> AllHaveIds(level, w);
  }

  function Overlay(level: Level, base: map<SourceKey, SourceGroup>, from: map<SourceKey, SourceGroup>): map<SourceKey, SourceGroup> {
    map k | k in base :: if k.level == level && k in from then from[k] else base[k]
  }

  /** The same run seen from another state with the same view. */
  function Transported(plan: Plan, level: Level, w': World, v: World): World {
    World(Overlay(level, v.sources, w'.sources), plan.Run(v.rules), v.namespaces)
  }

  lemma Transport(plan: Plan, level: Level, w: World, w': World, v: World)
    requires SameView(level, w, v) && EnabledKeys(level, v) == EnabledKeys(level, w) && RunEffect(plan, level, w, w')
    ensures RunEffect(plan, level, v, Transported(plan, level, w', v))
  {}

  /** A run of one level leaves the view of every other level alone. */
  lemma OtherViewKept(plan: Plan, a: Level, b: Level, w: World, w': World)
    requires a != b && RunEffect(plan, a, w, w')
    ensures SameView(b, w, w') && w'.sources.Keys == w.sources.Keys
    ensures forall k: SourceKey :: k in w.sources && k.level != a ==> w'.sources[k] == w.sources[k]
  {}

  /** The two orders end in the same sources. */
  lemma SourcesCommute(p: Plan, q: Plan, a: Level, b: Level, w: World, w1: World, w12: World, w2: World)
    requires a != b && RunEffect(p, a, w, w1) && RunEffect(q, b, w1, w12)
    requires w2 == Transported(q, b, w12, w)
    ensures Transported(p, a, w1, w2).sources == w12.sources
  {}

  /** Runs of different levels commute: whatever A then B leads to, B then A leads to as well. */
  lemma RunsCommute(enforcer: Enforcer, marshal: Marshal, a: Level, b: Level, w: World, w1: World, w12: World)
    returns (w2: World)
    requires forall g :: marshal(g).Some?
    requires a != b && NamesAvailable(a, w.rules) && NamesAvailable(b, w.rules)
    requires Reconciled(enforcer, marshal, a, w, w1) && Reconciled(enforcer, marshal, b, w1, w12)
    ensures Reconciled(enforcer, marshal, b, w, w2) && Reconciled(enforcer, marshal, a, w2, w12)
  {
    var la, p := PlanOfRun(enforcer, marshal, a, w, w1);
    PlanKeepsNames(a, b, p, w.rules);
    w2 := SecondRunFirst(enforcer, marshal, a, b, p, w, w1, w12);
    FirstRunSecond(enforcer, marshal, a, la, p, w, w1, w2, w12);
  }

  lemma SecondRunFirst(enforcer: Enforcer, marshal: Marshal, a: Level, b: Level, p: Plan, w: World, w1: World, w12: World)
    returns (w2: World)
    requires forall g :: marshal(g).Some?
    requires a != b && NamesAvailable(a, w.rules) && NamesAvailable(b, w.rules) && NamesAvailable(b, w1.rules)
    requires PlanFor(a, p) && RunEffect(p, a, w, w1)
    requires Reconciled(enforcer, marshal, b, w1, w12)
    ensures Reconciled(enforcer, marshal, b, w, w2)
    ensures SameView(a, w, w2) && NamesAvailable(a, w2.rules) && Transported(p, a, w1, w2) == w12
  {
    var lb, q := PlanOfRun(enforcer, marshal, b, w1, w12);
    OtherViewKept(p, a, b, w, w1);
    ViewDecides(enforcer, marshal, b, lb, w1, w);
    w2 := Transported(q, b, w12, w);
    Transport(q, b, w1, w12, w);
    EffectIsReconciled(enforcer, marshal, b, lb, w, w2);
    OtherViewKept(q, b, a, w, w2);
    PlanKeepsNames(b, a, q, w.rules);
    SourcesCommute(p, q, a, b, w, w1, w12, w2);
    PlansCommute(a, b, p, q, w.rules);
  }

  lemma FirstRunSecond(enforcer: Enforcer, marshal: Marshal, a: Level, la: seq<SourceGroup>, p: Plan, w: World, w1: World, w2: World, w12: World)
    requires forall g :: marshal(g).Some?
    requires Lists(w, a, la) && p == PlanOf(enforcer, marshal, a, la, w) && RunEffect(p, a, w, w1)
    requires SameView(a, w, w2) && NamesAvailable(a, w2.rules) && Transported(p, a, w1, w2) == w12
    ensures Reconciled(enforcer, marshal, a, w2, w12)
  {
    ViewDecides(enforcer, marshal, a, la, w, w2);
    Transport(p, a, w, w1, w2);
    EffectIsReconciled(enforcer, marshal, a, la, w2, w12);
  }

  // ----- Recovery from failed runs -----

  /** Runs of these levels one after the other, each failing anywhere or not at all. */
  ghost predicate Runs(levels: seq<Level>, ws: seq<World>) {
    |ws| == |levels| + 1 && forall j :: 0 <= j < |levels| ==> Confined(levels[j], ws[j], ws[j + 1])
  }

  /** No run puts an object under another level's name, or one of its own without its labels. */
  lemma RunBringsNoForeign(a: Level, b: Level, before: Rules, after: Rules, i: nat)
    requires RulesConfined(b, before, after) && Available(Key(a, i), At(before, Key(a, i)), Selector(a))
    ensures Available(Key(a, i), At(after, Key(a, i)), Selector(a))
  {
    var k := Key(a, i);
    if At(after, k) != At(before, k) && At(after, k).Some? {
      var j: nat :| k == Key(b, j);
      NamesInjective(a, i, b, j);
    }
  }

  lemma {:induction false} RunsBringNoForeign(level: Level, desired: Rules, levels: seq<Level>, ws: seq<World>, n: nat)
    requires Runs(levels, ws) && n < |ws|
    requires Belongs(level, desired) && NoForeign(ws[0].rules, Selector(level), desired)
    ensures NoForeign(ws[n].rules, Selector(level), desired) && ws[n].namespaces == ws[0].namespaces
  {
    if n > 0 {
      RunsBringNoForeign(level, desired, levels, ws, n - 1);
      assert Confined(levels[n - 1], ws[n - 1], ws[n - 1 + 1]);
      if !IdsPartlyAdded(levels[n - 1], ws[n - 1], ws[n]) {
        forall k | k in desired ensures Available(k, At(ws[n].rules, k), Selector(level)) {
          var i: nat :| k == Key(level, i);
          RunBringsNoForeign(level, levels[n - 1], ws[n - 1].rules, ws[n].rules, i);
        }
      }
    }
  }

  /** Recovery: after any runs of any levels, stopped by failures anywhere, two reconciles with reliable calls settle
      the level and a third changes nothing, if at the start no foreign object had a name that is then called for. */
  lemma SettlesAfterFailures(enforcer: Enforcer, marshal: Marshal, level: Level, list: seq<SourceGroup>,
                             levels: seq<Level>, ws: seq<World>, w1: World, w2: World, w3: World)
    requires forall g :: marshal(g).Some?
    requires Runs(levels, ws) && Live(level, ws[0])
    requires var w := ws[|levels|];
      && Reconciled(enforcer, marshal, level, w, w1)
      && Reconciled(enforcer, marshal, level, w1, w2)
      && Reconciled(enforcer, marshal, level, w2, w3)
      && Lists(Identified(level, w, w1), level, list)
      && NoForeign(ws[0].rules, Selector(level), Desired(enforcer, marshal, level, list, Identified(level, w, w1)))
    ensures Settled(enforcer, marshal, level, w2) && w3 == w2
  {
    var w := ws[|levels|];
    var desired := Desired(enforcer, marshal, level, list, Identified(level, w, w1));
    DesiredBelongs(enforcer, marshal, level, list, Identified(level, w, w1));
    RunsBringNoForeign(level, desired, levels, ws, |levels|);
    Converges(enforcer, marshal, level, list, w, w1, w2, w3);
  }
}
