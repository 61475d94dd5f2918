/** Bringing the stored PrometheusRules of one owner to the desired set, one call at a time. */
module BulkUpdate {
  import opened Text
  import opened AlertTypes
  import opened ObjectNames
  import opened ApiServer

  /** Every desired object carries the labels it will be selected by. */
  ghost predicate WellLabelled(desired: Rules, selector: Labels) {
    forall k :: k in desired ==> Selected(k, desired[k], selector)
  }

  function At(rules: Rules, k: ObjectKey): Option<PrometheusRule> {
    if k in rules then Some(rules[k]) else None
  }

  /** Whether what is stored under `k` is not what is wanted there. */
  predicate Off(k: ObjectKey, at: Option<PrometheusRule>, want: Option<PrometheusRule>, selector: Labels) {
    if want.Some? then at != want else at.Some? && Selected(k, at.value, selector)
  }

  /** Keys under which the store does not hold what is desired. */
  function Diff(rules: Rules, selector: Labels, desired: Rules): set<ObjectKey> {
    set k | k in rules.Keys + desired.Keys && Off(k, At(rules, k), At(desired, k), selector)
  }

  /** Nobody else's object sits under `k`. */
  predicate Available(k: ObjectKey, at: Option<PrometheusRule>, selector: Labels) {
    at.None? || Selected(k, at.value, selector)
  }

  ghost predicate NoForeign(rules: Rules, selector: Labels, desired: Rules) {
    forall k :: k in desired ==> Available(k, At(rules, k), selector)
  }

  /** The selected objects replaced by the desired ones, all else kept. */
  ghost predicate Replaced(before: Rules, after: Rules, selector: Labels, desired: Rules) {
    forall k :: At(after, k) ==
      if k in desired || Available(k, At(before, k), selector) then At(desired, k) else At(before, k)
  }

  /** Each object is as before, or as desired and not somebody else's. */
  ghost predicate Between(before: Rules, after: Rules, selector: Labels, desired: Rules) {
    forall k :: At(after, k) == At(before, k) ||
      (At(after, k) == At(desired, k) && Available(k, At(before, k), selector))
  }

  lemma OneFewer(rules: Rules, rules': Rules, selector: Labels, desired: Rules, k: ObjectKey)
    requires forall j :: j != k ==> At(rules', j) == At(rules, j)
    requires Off(k, At(rules, k), At(desired, k), selector)
    requires !Off(k, At(rules', k), At(desired, k), selector)
    ensures |Diff(rules', selector, desired)| + 1 == |Diff(rules, selector, desired)|
  {
    var d, d' := Diff(rules, selector, desired), Diff(rules', selector, desired);
    assert k in d;
    assert d' == d - {k} by {
      forall j ensures j in d' <==> j in d - {k} {
        assert j in rules <==> At(rules, j).Some?;
        assert j in rules' <==> At(rules', j).Some?;
      }
    }
  }

  /** Nothing is left to do exactly when the selected objects are the desired ones. */
  lemma DiffEmpty(rules: Rules, selector: Labels, desired: Rules)
    requires WellLabelled(desired, selector)
    ensures Diff(rules, selector, desired) == {} <==> SelectedRules(rules, selector) == desired
  {
    var d, current := Diff(rules, selector, desired), SelectedRules(rules, selector);
    if d == {} {
      forall k ensures At(current, k) == At(desired, k) {
        assert k !in d;
      }
      assert forall k :: k in current <==> At(current, k).Some?;
      assert forall k :: k in desired <==> At(desired, k).Some?;
      assert forall k :: k in current ==> At(current, k).value == current[k];
      assert current == desired;
    } else {
      var k :| k in d;
      assert At(current, k) != At(desired, k);
    }
  }

  lemma ReplacedSelects(before: Rules, after: Rules, selector: Labels, desired: Rules)
    requires WellLabelled(desired, selector) && Replaced(before, after, selector, desired)
    ensures SelectedRules(after, selector) == desired
  {}

  lemma BetweenTransitive(a: Rules, b: Rules, c: Rules, selector: Labels, desired: Rules)
    requires Between(a, b, selector, desired) && Between(b, c, selector, desired)
    ensures Between(a, c, selector, desired)
  {}

  /** However far an update got, somebody else's objects are where they were, and nobody else's have come. */
  lemma BetweenKeepsForeign(before: Rules, after: Rules, selector: Labels, desired: Rules)
    requires WellLabelled(desired, selector) && Between(before, after, selector, desired)
    ensures NoForeign(before, selector, desired) <==> NoForeign(after, selector, desired)
  {
    if NoForeign(before, selector, desired) {
      forall k | k in desired ensures Available(k, At(after, k), selector) {
        assert Available(k, At(before, k), selector);
      }
    }
    if NoForeign(after, selector, desired) {
      forall k | k in desired ensures Available(k, At(before, k), selector) {
        assert Available(k, At(after, k), selector);
      }
    }
  }

  // ----- The code -----

  method Index(items: seq<Item>) returns (m: Rules)
    ensures m == ToMap(items)
  {
    m := map[];
    for i := 0 to |items|
      invariant m == ToMap(items[..i])
    {
      m := m[items[i].key := items[i].rule];
      assert items[..i + 1][..i] == items[..i];
    }
    assert items[..|items|] == items;
  }

  /** Update if listed and different, create if not listed. */
  method UpsertOne(server: Server, selector: Labels, k: ObjectKey, current: Option<PrometheusRule>, desired: PrometheusRule)
    returns (err: Option<ApiError>)
    requires current.Some? ==> current == At(server.world.rules, k) && Selected(k, current.value, selector)
    requires current.None? && k in server.world.rules ==> !Selected(k, server.world.rules[k], selector)
    modifies server
    ensures server.writes == old(server.writes) ==> server.world == old(server.world)
    ensures server.writes != old(server.writes) ==>
      && server.writes == old(server.writes) + 1
      && server.world == old(server.world).(rules := old(server.world.rules)[k := desired])
      && At(old(server.world.rules), k) != Some(desired) && Available(k, At(old(server.world.rules), k), selector)
    ensures err.None? ==>
      At(server.world.rules, k) == Some(desired) && Available(k, At(old(server.world.rules), k), selector)
    ensures server.reliable ==>
      err == if Available(k, At(old(server.world.rules), k), selector) then None else Some(AlreadyExists)
  {
    if current.Some? {
      if current.value != desired {
        err := server.UpdateRule(k, desired);
      } else {
        err := None;
      }
    } else {
      err := server.CreateRule(k, desired);
    }
  }

  /** The desired objects outside `todo` are in place and took nobody else's place; all else is as before. */
  ghost predicate Written(before: Rules, after: Rules, selector: Labels, desired: Rules, todo: set<ObjectKey>) {
    forall k ::
      if k in desired && k !in todo then At(after, k) == At(desired, k) && Available(k, At(before, k), selector)
      else At(after, k) == At(before, k)
  }

  lemma WrittenStep(before: Rules, rules: Rules, rules': Rules, selector: Labels, desired: Rules, todo: set<ObjectKey>, k: ObjectKey)
    requires Written(before, rules, selector, desired, todo)
    requires k in todo && k in desired && Available(k, At(rules, k), selector)
    requires At(rules', k) == Some(desired[k]) && forall j :: j != k ==> At(rules', j) == At(rules, j)
    ensures Written(before, rules', selector, desired, todo - {k})
  {}

  /** The body of the first loop. */
  method UpsertNext(server: Server, selector: Labels, current: Option<PrometheusRule>, desiredMap: Rules, k: ObjectKey,
                    ghost before: Rules, ghost todo: set<ObjectKey>) returns (err: Option<ApiError>, ghost todo': set<ObjectKey>)
    requires k in desiredMap && k in todo && Written(before, server.world.rules, selector, desiredMap, todo)
    requires current.Some? ==> current == At(server.world.rules, k) && Selected(k, current.value, selector)
    requires current.None? && k in server.world.rules ==> !Selected(k, server.world.rules[k], selector)
    modifies server
    ensures server.world == old(server.world).(rules := server.world.rules)
    ensures Written(before, server.world.rules, selector, desiredMap, todo')
    ensures |Diff(server.world.rules, selector, desiredMap)| + server.writes
         == |Diff(old(server.world.rules), selector, desiredMap)| + old(server.writes)
    ensures todo' == todo - {k} || (err.Some? && todo' == todo)
    ensures server.reliable ==>
      err == if Available(k, At(old(server.world.rules), k), selector) then None else Some(AlreadyExists)
  {
    ghost var rules, writes := server.world.rules, server.writes;
    err := UpsertOne(server, selector, k, current, desiredMap[k]);
    todo' := todo;
    if server.writes != writes {
      OneFewer(rules, server.world.rules, selector, desiredMap, k);
    }
    if server.writes != writes || err.None? {
      WrittenStep(before, rules, server.world.rules, selector, desiredMap, todo, k);
      todo' := todo - {k};
    }
  }

  /** First loop: every desired object that is not there yet is written. */
  method Upsert(server: Server, selector: Labels, currentMap: Rules, desiredMap: Rules)
    returns (err: Option<ApiError>, ghost todo: set<ObjectKey>)
    requires currentMap == SelectedRules(server.world.rules, selector)
    modifies server
    ensures server.world == old(server.world).(rules := server.world.rules)
    ensures Written(old(server.world.rules), server.world.rules, selector, desiredMap, todo)
    ensures |Diff(server.world.rules, selector, desiredMap)| + server.writes
         == |Diff(old(server.world.rules), selector, desiredMap)| + old(server.writes)
    ensures err.None? ==> todo == {}
    ensures server.reliable && NoForeign(old(server.world.rules), selector, desiredMap) ==> err.None?
    ensures server.reliable ==> err.None? || err == Some(AlreadyExists)
  {
    ghost var before := server.world.rules;
    var left := desiredMap.Keys;
    todo := left;
    while left != {}
      invariant left <= desiredMap.Keys && todo == left
      invariant server.world == old(server.world).(rules := server.world.rules)
      invariant Written(before, server.world.rules, selector, desiredMap, todo)
      invariant |Diff(server.world.rules, selector, desiredMap)| + server.writes
             == |Diff(before, selector, desiredMap)| + old(server.writes)
    {
      var k :| k in left;
      assert At(server.world.rules, k) == At(before, k);
      err, todo := UpsertNext(server, selector, At(currentMap, k), desiredMap, k, before, todo);
      if err.Some? {
        return;
      }
      left := left - {k};
    }
    err := None;
  }

  ghost predicate Pruned(before: Rules, after: Rules, gone: set<ObjectKey>) {
    forall k :: At(after, k) == if k in gone then None else At(before, k)
  }

  /** Second loop: every listed object that is not desired is deleted. */
  method Prune(server: Server, selector: Labels, currentMap: Rules, desiredMap: Rules) returns (err: Option<ApiError>)
    requires forall k :: k in currentMap && k !in desiredMap ==>
      k in server.world.rules && Selected(k, server.world.rules[k], selector)
    modifies server
    ensures server.world == old(server.world).(rules := server.world.rules)
    ensures exists gone ::
      gone <= currentMap.Keys - desiredMap.Keys && Pruned(old(server.world.rules), server.world.rules, gone)
    ensures |Diff(server.world.rules, selector, desiredMap)| + server.writes
         == |Diff(old(server.world.rules), selector, desiredMap)| + old(server.writes)
    ensures err.None? ==> Pruned(old(server.world.rules), server.world.rules, currentMap.Keys - desiredMap.Keys)
    ensures server.reliable ==> err.None?
  {
    ghost var before := server.world.rules;
    var todo := currentMap.Keys - desiredMap.Keys;
    while todo != {}
      invariant todo <= currentMap.Keys - desiredMap.Keys
      invariant server.world == old(server.world).(rules := server.world.rules)
      invariant Pruned(before, server.world.rules, currentMap.Keys - desiredMap.Keys - todo)
      invariant |Diff(server.world.rules, selector, desiredMap)| + server.writes
             == |Diff(before, selector, desiredMap)| + old(server.writes)
    {
      var k :| k in todo;
      ghost var rules, writes := server.world.rules, server.writes;
      assert At(rules, k) == At(before, k);
      err := server.DeleteRule(k);
      if server.writes != writes {
        OneFewer(rules, server.world.rules, selector, desiredMap, k);
        assert Pruned(before, server.world.rules, currentMap.Keys - desiredMap.Keys - (todo - {k}));
      }
      if err.Some? && err.value != NotFound {
        return;
      }
      todo := todo - {k};
    }
    err := None;
  }

  /** `current` has just been listed; no one else writes meanwhile. */
  method BulkUpdatePrometheusRules(server: Server, selector: Labels, current: seq<Item>, desired: seq<Item>)
    returns (err: Option<ApiError>)
    requires ToMap(current) == SelectedRules(server.world.rules, selector)
    requires WellLabelled(ToMap(desired), selector)
    modifies server
    ensures server.world == old(server.world).(rules := server.world.rules)
    ensures Between(old(server.world.rules), server.world.rules, selector, ToMap(desired))
    ensures |Diff(server.world.rules, selector, ToMap(desired))| + server.writes
         == |Diff(old(server.world.rules), selector, ToMap(desired))| + old(server.writes)
    ensures err.None? ==> Replaced(old(server.world.rules), server.world.rules, selector, ToMap(desired))
    ensures server.reliable ==>
      err == if NoForeign(old(server.world.rules), selector, ToMap(desired)) then None else Some(AlreadyExists)
  {
    var currentMap := Index(current);
    var desiredMap := Index(desired);
    ghost var before := server.world.rules;
    ghost var todo;
    err, todo := Upsert(server, selector, currentMap, desiredMap);
    if err.Some? {
      return;
    }
    ghost var middle := server.world.rules;
    assert forall k :: k in currentMap && k !in desiredMap ==> At(middle, k) == At(before, k);
    err := Prune(server, selector, currentMap, desiredMap);
  }

  /** One attempt: list, then update. */
  method Attempt(server: Server, selector: Labels, desired: seq<Item>) returns (done: bool)
    requires WellLabelled(ToMap(desired), selector)
    modifies server
    ensures server.world == old(server.world).(rules := server.world.rules)
    ensures Between(old(server.world.rules), server.world.rules, selector, ToMap(desired))
    ensures |Diff(server.world.rules, selector, ToMap(desired))| + server.writes
         == |Diff(old(server.world.rules), selector, ToMap(desired))| + old(server.writes)
    ensures done ==> SelectedRules(server.world.rules, selector) == ToMap(desired)
    ensures server.reliable && NoForeign(old(server.world.rules), selector, ToMap(desired)) ==> done
  {
    ghost var before := server.world.rules;
    var current, err := server.ListRules(selector);
    if err.Some? {
      return false;
    }
    err := BulkUpdatePrometheusRules(server, selector, current, desired);
    if err.None? {
      ReplacedSelects(before, server.world.rules, selector, ToMap(desired));
    }
    return err.None?;
  }

  /** Retries are bounded: over any number of attempts, cut short anywhere, the writes that take effect are exactly
      the differences they have closed, so they are never more than there were at the start. When an attempt gets
      through, the differences are all gone, and no foreign object was in the way. */
  method Retry(server: Server, selector: Labels, desired: seq<Item>, attempts: nat) returns (done: bool)
    requires WellLabelled(ToMap(desired), selector)
    modifies server
    ensures server.world == old(server.world).(rules := server.world.rules)
    ensures Between(old(server.world.rules), server.world.rules, selector, ToMap(desired))
    ensures |Diff(server.world.rules, selector, ToMap(desired))| + server.writes
         == |Diff(old(server.world.rules), selector, ToMap(desired))| + old(server.writes)
    ensures done ==>
      && SelectedRules(server.world.rules, selector) == ToMap(desired)
      && server.writes == old(server.writes) + |Diff(old(server.world.rules), selector, ToMap(desired))|
      && NoForeign(old(server.world.rules), selector, ToMap(desired))
    ensures server.reliable && attempts > 0 && NoForeign(old(server.world.rules), selector, ToMap(desired)) ==> done
  {
    ghost var before, want := server.world.rules, ToMap(desired);
    done := false;
    for n := 0 to attempts
      invariant !done && (server.reliable && n > 0 ==> !NoForeign(before, selector, want))
      invariant server.world == old(server.world).(rules := server.world.rules)
      invariant Between(before, server.world.rules, selector, want)
      invariant |Diff(server.world.rules, selector, want)| + server.writes == |Diff(before, selector, want)| + old(server.writes)
    {
      ghost var rules := server.world.rules;
      BetweenKeepsForeign(before, rules, selector, want);
      done := Attempt(server, selector, desired);
      BetweenTransitive(before, rules, server.world.rules, selector, want);
      if done {
        DiffEmpty(server.world.rules, selector, want);
        BetweenKeepsForeign(before, server.world.rules, selector, want);
        assert forall k :: k in want ==> k in SelectedRules(server.world.rules, selector);
        return;
      }
    }
  }
}
