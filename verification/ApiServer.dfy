/** The cluster state the alerting controllers read and write, behind an API server
    whose calls may fail at any moment, before or after taking effect. */
module ApiServer {
  import opened Text
  import opened AlertTypes
  import opened ObjectNames

  datatype ApiError = NotFound | AlreadyExists | Conflict | Other

  type Rules = map<ObjectKey, PrometheusRule>

  datatype NamespaceObject = NamespaceObject(apiVersion: string, kind: string, uid: string, terminating: bool)

  datatype SourceKey = SourceKey(level: Level, name: string)

  datatype World = World(
    sources: map<SourceKey, SourceGroup>,
    rules: Rules,
    namespaces: map<string, NamespaceObject>)

  /** A PrometheusRule together with its key, as a list call returns it. */
  datatype Item = Item(key: ObjectKey, rule: PrometheusRule)

  /** labels.SelectorFromSet(selector) within the monitoring namespace */
  predicate Selected(key: ObjectKey, rule: PrometheusRule, selector: Labels) {
    key.namespace == MONITORING_NAMESPACE && forall l :: l in selector ==> l in rule.labels && rule.labels[l] == selector[l]
  }

  function SelectedRules(rules: Rules, selector: Labels): Rules {
    map k | k in rules && Selected(k, rules[k], selector) :: rules[k]
  }

  function ToMap(items: seq<Item>): Rules {
    if items == [] then map[]
    else ToMap(items[..|items| - 1])[items[|items| - 1].key := items[|items| - 1].rule]
  }

  /** What listing the level's groups with the "enabled" label selector yields. */
  predicate Enabled(key: SourceKey, g: SourceGroup, level: Level) {
    key.level == level && key.name == g.name && g.enabled
  }

  /** `list` holds exactly the enabled groups of `level`, each once, in some order. */
  ghost predicate Lists(world: World, level: Level, list: seq<SourceGroup>) {
    && (forall i, j :: 0 <= i < j < |list| ==> list[i].name != list[j].name)
    && (forall g :: g in list <==>
          SourceKey(level, g.name) in world.sources && world.sources[SourceKey(level, g.name)] == g
          && Enabled(SourceKey(level, g.name), g, level))
  }

  class Server {
    var world: World
    /** How many writes of PrometheusRules have taken effect. */
    var writes: nat
    /** Whether calls are known not to fail spuriously. */
    const reliable: bool

    constructor (w: World, r: bool)
      ensures world == w && writes == 0 && reliable == r
    {
      world, writes, reliable := w, 0, r;
    }

    /** A spurious failure, or none. */
    method Fault() returns (e: Option<ApiError>)
      ensures reliable ==> e.None?
      ensures e.Some? ==> e.value in {Conflict, Other}
    {
      if reliable {
        return None;
      } else if * {
        return Some(Conflict);
      } else if * {
        return Some(Other);
      }
      return None;
    }

    /** Lists the PrometheusRules matching `selector`, in any order. */
    method ListRules(selector: Labels) returns (items: seq<Item>, err: Option<ApiError>)
      ensures reliable ==> err.None?
      ensures err.None? ==> ToMap(items) == SelectedRules(world.rules, selector)
    {
      items := [];
      err := Fault();
      var all := SelectedRules(world.rules, selector);
      var todo := all.Keys;
      while todo != {}
        invariant todo <= all.Keys
        invariant ToMap(items) == all - todo
      {
        var k :| k in todo;
        items := items + [Item(k, all[k])];
        assert items[..|items| - 1] + [Item(k, all[k])] == items;
        todo := todo - {k};
      }
    }

    method UpdateRule(k: ObjectKey, r: PrometheusRule) returns (err: Option<ApiError>)
      modifies this
      ensures writes == old(writes) ==> world == old(world)
      ensures writes != old(writes) ==>
        && writes == old(writes) + 1 && k in old(world.rules)
        && world == old(world).(rules := old(world.rules)[k := r])
      ensures err.None? ==> writes == old(writes) + 1
      ensures reliable && k in old(world.rules) ==> err.None?
    {
      err := Fault();
      if err.Some? {
        return;
      }
      if k !in world.rules {
        return Some(NotFound);
      }
      world := world.(rules := world.rules[k := r]);
      writes := writes + 1;
      err := Fault();
    }

    method CreateRule(k: ObjectKey, r: PrometheusRule) returns (err: Option<ApiError>)
      modifies this
      ensures writes == old(writes) ==> world == old(world)
      ensures writes != old(writes) ==>
        && writes == old(writes) + 1 && k !in old(world.rules)
        && world == old(world).(rules := old(world.rules)[k := r])
      ensures err.None? ==> writes == old(writes) + 1
      ensures reliable ==> err == if k in old(world.rules) then Some(AlreadyExists) else None
    {
      err := Fault();
      if err.Some? {
        return;
      }
      if k in world.rules {
        return Some(AlreadyExists);
      }
      world := world.(rules := world.rules[k := r]);
      writes := writes + 1;
      err := Fault();
    }

    method DeleteRule(k: ObjectKey) returns (err: Option<ApiError>)
      modifies this
      ensures writes == old(writes) ==> world == old(world)
      ensures writes != old(writes) ==>
        && writes == old(writes) + 1 && k in old(world.rules)
        && world == old(world).(rules := old(world.rules) - {k})
      ensures err.None? ==> writes == old(writes) + 1
      ensures err == Some(NotFound) ==> k !in old(world.rules)
      ensures reliable && k in old(world.rules) ==> err.None?
    {
      err := Fault();
      if err.Some? {
        return;
      }
      if k !in world.rules {
        return Some(NotFound);
      }
      world := world.(rules := world.rules - {k});
      writes := writes + 1;
      err := Fault();
    }

    /** Deletes every matching PrometheusRule; a failed call may have deleted some of them. */
    method DeleteAllRules(selector: Labels) returns (err: Option<ApiError>)
      modifies this
      ensures world == old(world).(rules := world.rules)
      ensures err.None? ==> world.rules == old(world.rules) - SelectedRules(old(world.rules), selector).Keys
      ensures old(world.rules).Keys - world.rules.Keys <= SelectedRules(old(world.rules), selector).Keys
      ensures world.rules.Keys <= old(world.rules).Keys
      ensures forall k :: k in world.rules ==> world.rules[k] == old(world.rules)[k]
      ensures reliable ==> err.None?
    {
      err := Fault();
      var all := SelectedRules(world.rules, selector).Keys;
      var gone := all;
      if err.Some? {
        gone :| gone <= all;
      }
      writes := writes + |gone|;
      world := world.(rules := world.rules - gone);
    }

    /** Lists the enabled source groups of a level, in any order. */
    method ListSources(level: Level) returns (list: seq<SourceGroup>, err: Option<ApiError>)
      ensures reliable ==> err.None?
      ensures err.None? ==> Lists(world, level, list)
    {
      list := [];
      err := Fault();
      var todo := set k | k in world.sources && Enabled(k, world.sources[k], level);
      ghost var all := todo;
      while todo != {}
        invariant todo <= all
        invariant forall i, j :: 0 <= i < j < |list| ==> list[i].name != list[j].name
        invariant forall g :: g in list <==>
          SourceKey(level, g.name) in all - todo && world.sources[SourceKey(level, g.name)] == g
      {
        var k :| k in todo;
        assert k == SourceKey(level, world.sources[k].name);
        list := list + [world.sources[k]];
        todo := todo - {k};
      }
    }

    /** Stores a changed source group under its own key. */
    method UpdateSource(level: Level, g: SourceGroup) returns (err: Option<ApiError>)
      modifies this`world
      ensures var k := SourceKey(level, g.name);
        || world == old(world)
        || (k in old(world.sources) && world == old(world).(sources := old(world.sources)[k := g]))
      ensures err.None? ==> world.sources == old(world.sources)[SourceKey(level, g.name) := g]
      ensures reliable && SourceKey(level, g.name) in old(world.sources) ==> err.None?
    {
      err := Fault();
      if err.Some? {
        return;
      }
      var k := SourceKey(level, g.name);
      if k !in world.sources {
        return Some(NotFound);
      }
      world := world.(sources := world.sources[k := g]);
      err := Fault();
    }

    method GetNamespace(name: string) returns (ns: Option<NamespaceObject>, err: Option<ApiError>)
      ensures reliable ==> err == if name in world.namespaces then None else Some(NotFound)
      ensures err.None? ==> name in world.namespaces && ns == Some(world.namespaces[name])
    {
      err := Fault();
      if err.None? && name !in world.namespaces {
        return None, Some(NotFound);
      }
      ns := if err.None? then Some(world.namespaces[name]) else None;
    }
  }
}
