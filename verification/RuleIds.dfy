/** First phase of a reconcile: every rule of an enabled group gets a rule_id label. */
module RuleIds {
  import opened Text
  import opened AlertTypes
  import opened ApiServer

  const RULE_ID := "rule_id"

  predicate HasId(r: SourceRule) {
    RULE_ID in r.labels
  }

  ghost predicate HasIds(g: SourceGroup) {
    forall j :: 0 <= j < |g.rules| ==> HasId(g.rules[j])
  }

  /** Only a missing id was added. */
  ghost predicate RuleFilled(r: SourceRule, r': SourceRule) {
    && HasId(r')
    && r' == r.(labels := if HasId(r) then r.labels else r.labels[RULE_ID := r'.labels[RULE_ID]])
  }

  /** The first `n` rules are filled, the others untouched. */
  ghost predicate FilledUpTo(g: SourceGroup, g': SourceGroup, n: nat) {
    && g' == g.(rules := g'.rules) && |g'.rules| == |g.rules|
    && forall j :: 0 <= j < |g.rules| ==>
         if j < n then RuleFilled(g.rules[j], g'.rules[j]) else g'.rules[j] == g.rules[j]
  }

  /** Exactly the groups in `done` are filled. */
  ghost predicate IdsAddedTo(w: World, w': World, done: set<SourceKey>) {
    && w' == w.(sources := w'.sources) && w'.sources.Keys == w.sources.Keys
    && forall k :: k in w.sources ==>
         if k in done then FilledUpTo(w.sources[k], w'.sources[k], |w.sources[k].rules|)
         else w'.sources[k] == w.sources[k]
  }

  /** Each enabled group of the level may have ids added to its first rules; nothing else changes. */
  ghost predicate IdsPartlyAdded(level: Level, w: World, w': World) {
    && w' == w.(sources := w'.sources) && w'.sources.Keys == w.sources.Keys
    && forall k :: k in w.sources ==>
         || w'.sources[k] == w.sources[k]
         || (Enabled(k, w.sources[k], level) && exists n: nat :: FilledUpTo(w.sources[k], w'.sources[k], n))
  }

  function EnabledKeys(level: Level, w: World): set<SourceKey> {
    set k | k in w.sources && Enabled(k, w.sources[k], level)
  }

  /** Every rule of every enabled group of the level has got its id; nothing else changes. */
  ghost predicate IdsAdded(level: Level, w: World, w': World) {
    IdsAddedTo(w, w', EnabledKeys(level, w))
  }

  ghost predicate AllHaveIds(level: Level, w: World) {
    forall k :: k in w.sources && Enabled(k, w.sources[k], level) ==> HasIds(w.sources[k])
  }

  /** Once the pass is through, a second pass has nothing to do. */
  lemma IdsSettle(level: Level, w: World, w': World)
    requires IdsAdded(level, w, w')
    ensures AllHaveIds(level, w')
  {}

  /** Where no id is missing the pass writes nothing. */
  lemma NothingToAdd(level: Level, w: World, w': World)
    requires AllHaveIds(level, w) && IdsAdded(level, w, w')
    ensures w' == w
  {
    forall k | k in w.sources ensures w'.sources[k] == w.sources[k] {
      if Enabled(k, w.sources[k], level) {
        assert w'.sources[k].rules == w.sources[k].rules;
      }
    }
    assert w'.sources == w.sources;
  }

  /** Nor does a pass that is cut short. */
  lemma NothingPartlyAdded(level: Level, w: World, w': World)
    requires AllHaveIds(level, w) && IdsPartlyAdded(level, w, w')
    ensures w' == w
  {
    forall k | k in w.sources ensures w'.sources[k] == w.sources[k] {
      if n: nat :| Enabled(k, w.sources[k], level) && FilledUpTo(w.sources[k], w'.sources[k], n) {
        assert w'.sources[k].rules == w.sources[k].rules;
      }
    }
    assert w'.sources == w.sources;
  }

  // ----- The code -----

  /** uuid.NewUUID: any string at all */
  method NewUUID() returns (id: string) {
    id := *;
  }

  /** Fills one listed group, storing it after every rule that was changed. */
  method AddIdsToGroup(server: Server, level: Level, group: SourceGroup) returns (updated: bool, err: Option<ApiError>)
    requires var k := SourceKey(level, group.name); k in server.world.sources && server.world.sources[k] == group
    modifies server`world
    ensures var k := SourceKey(level, group.name);
      && server.world == old(server.world).(sources := server.world.sources)
      && k in server.world.sources
      && server.world.sources == old(server.world.sources)[k := server.world.sources[k]]
      && (exists n: nat :: FilledUpTo(group, server.world.sources[k], n))
      && (err.None? ==> FilledUpTo(group, server.world.sources[k], |group.rules|) && (updated <==> !HasIds(group)))
    ensures server.reliable ==> err.None?
  {
    var g := group;
    var k := SourceKey(level, group.name);
    updated, err := false, None;
    assert FilledUpTo(group, g, 0);
    assert old(server.world.sources) == old(server.world.sources)[k := group];
    for j := 0 to |group.rules|
      invariant FilledUpTo(group, g, j)
      invariant server.world == old(server.world).(sources := old(server.world.sources)[k := g])
      invariant err.None?
      invariant updated <==> exists t :: 0 <= t < j && !HasId(group.rules[t])
    {
      if RULE_ID !in g.rules[j].labels {
        var id := NewUUID();
        var rule := g.rules[j].(labels := g.rules[j].labels[RULE_ID := id]);
        assert RuleFilled(group.rules[j], rule);
        g := g.(rules := g.rules[j := rule]);
        assert FilledUpTo(group, g, j + 1);
        err := server.UpdateSource(level, g);
        if err.Some? {
          return;
        }
        updated := true;
      }
    }
  }

  /** Keys of the first groups of a listing. */
  ghost function ListedKeys(level: Level, list: seq<SourceGroup>): set<SourceKey> {
    set g | g in list :: SourceKey(level, g.name)
  }

  lemma AllListed(w: World, level: Level, list: seq<SourceGroup>)
    requires Lists(w, level, list)
    ensures ListedKeys(level, list) == EnabledKeys(level, w)
    ensures (exists t :: 0 <= t < |list| && !HasIds(list[t])) <==> !AllHaveIds(level, w)
  {}

  lemma NextListed(level: Level, w: World, list: seq<SourceGroup>, i: nat)
    requires Lists(w, level, list) && i < |list|
    ensures var done, k := ListedKeys(level, list[..i]), SourceKey(level, list[i].name);
      && k !in done && ListedKeys(level, list[..i + 1]) == done + {k}
      && forall d :: d in done ==> d in w.sources && Enabled(d, w.sources[d], level)
  {
    var done, k := ListedKeys(level, list[..i]), SourceKey(level, list[i].name);
    assert k !in done by {
      assert forall t :: 0 <= t < i ==> list[t].name != list[i].name;
    }
    assert list[..i + 1] == list[..i] + [list[i]];
  }

  /** What one finished or unfinished group adds to the state of the pass. */
  lemma GroupStep(level: Level, w: World, w1: World, w2: World, list: seq<SourceGroup>, i: nat)
    requires Lists(w, level, list) && i < |list|
    requires IdsAddedTo(w, w1, ListedKeys(level, list[..i]))
    requires var k := SourceKey(level, list[i].name);
      k in w2.sources && w2 == w1.(sources := w1.sources[k := w2.sources[k]])
    ensures w1.sources[SourceKey(level, list[i].name)] == list[i]
    ensures FilledUpTo(list[i], w2.sources[SourceKey(level, list[i].name)], |list[i].rules|) ==>
      IdsAddedTo(w, w2, ListedKeys(level, list[..i + 1]))
    ensures (exists n: nat :: FilledUpTo(list[i], w2.sources[SourceKey(level, list[i].name)], n)) ==>
      IdsPartlyAdded(level, w, w2)
  {
    assert list[i] in list;
    NextListed(level, w, list, i);
  }

  /** The body of the outer loop. */
  method AddIdsToListed(server: Server, level: Level, list: seq<SourceGroup>, i: nat, ghost w: World)
    returns (updated: bool, err: Option<ApiError>)
    requires Lists(w, level, list) && i < |list|
    requires IdsAddedTo(w, server.world, ListedKeys(level, list[..i]))
    modifies server`world
    ensures IdsPartlyAdded(level, w, server.world)
    ensures err.None? ==> IdsAddedTo(w, server.world, ListedKeys(level, list[..i + 1]))
    ensures err.None? ==> (updated <==> !HasIds(list[i]))
    ensures server.reliable ==> err.None?
  {
    ghost var w1 := server.world;
    ghost var k := SourceKey(level, list[i].name);
    assert list[i] in list;
    assert w1.sources == w1.sources[k := w1.sources[k]];
    GroupStep(level, w, w1, w1, list, i);
    updated, err := AddIdsToGroup(server, level, list[i]);
    GroupStep(level, w, w1, server.world, list, i);
  }

  method AddRuleIds(server: Server, level: Level, list: seq<SourceGroup>) returns (updated: bool, err: Option<ApiError>)
    requires Lists(server.world, level, list)
    modifies server`world
    ensures IdsPartlyAdded(level, old(server.world), server.world)
    ensures err.None? ==> IdsAdded(level, old(server.world), server.world)
    ensures err.None? ==> (updated <==> !AllHaveIds(level, old(server.world)))
    ensures server.reliable ==> err.None?
  {
    ghost var before := server.world;
    updated, err := false, None;
    for i := 0 to |list|
      invariant err.None?
      invariant IdsAddedTo(before, server.world, ListedKeys(level, list[..i]))
      invariant IdsPartlyAdded(level, before, server.world)
      invariant updated <==> exists t :: 0 <= t < i && !HasIds(list[t])
    {
      var u;
      u, err := AddIdsToListed(server, level, list, i, before);
      if err.Some? {
        return;
      }
      updated := updated || u;
    }
    assert list[..|list|] == list;
    AllListed(before, level, list);
  }
}
