/** Removing a member cluster's registration: an ordered sequence of deletions, any of which may fail. */
module Unjoin {
  import opened Text

  datatype Object =
    | ClusterRoleBinding(name: string)
    | ClusterRole(name: string)
    | RoleBinding(namespace: string, name: string)
    | Role(namespace: string, name: string)
    | ServiceAccount(namespace: string, name: string)
    | MemberNamespace(name: string)
    | Secret(namespace: string, name: string)
    | KubeFedCluster(namespace: string, name: string)

  datatype Answer = Done | NotFound | Failed

  /** One delete call and what came back. */
  datatype Call = Call(target: Object, answer: Answer)

  datatype Lookup = Present(secret: string) | Absent | Unknown

  /** Whether the three clients could be built; a member without configuration has no client at all. */
  datatype MemberClient = NoConfig | Broken | Ready
  datatype Clients = Clients(host: bool, member: MemberClient, kubefed: bool)

  datatype Config = Config(
    namespace: string, host: string, cluster: string, force: bool, dryRun: bool, skipMember: bool)

  function ServiceAccountName(c: Config): string {
    c.cluster + "-" + c.host
  }

  function RoleName(c: Config): string {
    "kubefed-controller-manager:" + ServiceAccountName(c)
  }

  function HealthCheckRoleName(c: Config): string {
    "kubefed-controller-manager:" + c.namespace + ":healthcheck-" + ServiceAccountName(c)
  }

  /** The role objects that joining created in the member cluster, in the order unjoining deletes them. */
  function RoleObjects(c: Config): seq<Object> {
    [ClusterRoleBinding(RoleName(c)), ClusterRole(RoleName(c)),
     ClusterRoleBinding(HealthCheckRoleName(c)), ClusterRole(HealthCheckRoleName(c)),
     RoleBinding(c.namespace, RoleName(c)), Role(c.namespace, RoleName(c))]
  }

  function Account(c: Config): Object {
    ServiceAccount(c.namespace, ServiceAccountName(c))
  }

  /** What joining can have created: the namespace, account and role objects in the member cluster, depending on the
      scope of the control plane, and the secret and the record in the host cluster. */
  function JoinCreates(c: Config, namespaced: bool, secret: string): set<Object> {
    var account := c.cluster + "-" + c.host;
    var role := "kubefed-controller-manager:" + account;
    var health := "kubefed-controller-manager:" + c.namespace + ":healthcheck-" + account;
    {MemberNamespace(c.namespace), ServiceAccount(c.namespace, account),
     Secret(c.namespace, secret), KubeFedCluster(c.namespace, c.cluster)}
    + if namespaced then {Role(c.namespace, role), RoleBinding(c.namespace, role), ClusterRole(health), ClusterRoleBinding(health)}
      else {ClusterRole(role), ClusterRoleBinding(role)}
  }

  // ----- Reading the call log -----

  ghost predicate Attempted(log: seq<Call>, o: Object) {
    exists i :: 0 <= i < |log| && log[i].target == o
  }

  /** The delete of `o` was accepted, or `o` was not there. */
  ghost predicate Confirmed(log: seq<Call>, o: Object) {
    exists i :: 0 <= i < |log| && log[i].target == o && log[i].answer != Failed
  }

  ghost predicate AllConfirmed(log: seq<Call>, os: seq<Object>) {
    forall k :: 0 <= k < |os| ==> Confirmed(log, os[k])
  }

  /** The member side is clean: role objects and service account confirmed gone, and the member's kubefed
      namespace accepted for deletion unless it is the host's own. */
  ghost predicate MemberClean(c: Config, log: seq<Call>, sameNamespace: bool) {
    && AllConfirmed(log, RoleObjects(c)) && Confirmed(log, Account(c))
    && (sameNamespace || Confirmed(log, MemberNamespace(c.namespace)))
  }

  /** Wherever the KubeFedCluster record's deletion is called, the member side is clean and the secret is gone already. */
  ghost predicate RecordLast(c: Config, log: seq<Call>, secret: string, sameNamespace: bool) {
    forall i :: 0 <= i < |log| && log[i].target.KubeFedCluster? ==>
      MemberClean(c, log[..i], sameNamespace) && Confirmed(log[..i], Secret(c.namespace, secret))
  }

  // ----- Progress through a list of deletions -----

  /** The call log, and what exists in either cluster. */
  datatype Snapshot = Snapshot(log: seq<Call>, objects: set<Object>)

  /** What is confirmed gone does not exist; a namespace may still be terminating. */
  ghost predicate Truthful(s: Snapshot) {
    forall i :: 0 <= i < |s.log| && s.log[i].answer != Failed && !s.log[i].target.MemberNamespace? ==> s.log[i].target !in s.objects
  }

  /** Between the two moments exactly the deletions of `os` were called, in that order, and nothing else went. */
  ghost predicate Called(s: Snapshot, s': Snapshot, os: seq<Object>) {
    && s.log <= s'.log && |s'.log| == |s.log| + |os|
    && (forall j :: 0 <= j < |os| ==> s'.log[|s.log| + j].target == os[j])
    && s'.objects <= s.objects && (forall o :: o in s.objects && o !in s'.objects ==> o in os)
  }

  /** The calls since `s` went through, up to the n-th. */
  ghost predicate WentThrough(s: Snapshot, s': Snapshot, n: nat) {
    forall i :: |s.log| <= i < |s.log| + n && i < |s'.log| ==> s'.log[i].answer != Failed
  }

  /** Deleting `os` in order: with force all of them whatever happens, without up to the first failure. */
  ghost predicate Ran(s: Snapshot, s': Snapshot, os: seq<Object>, force: bool, failed: bool) {
    if force then !failed && Called(s, s', os)
    else if !failed then Called(s, s', os) && WentThrough(s, s', |os|)
    else exists n :: StoppedAt(s, s', os, n)
  }

  /** The n-th call failed and was the last. */
  ghost predicate StoppedAt(s: Snapshot, s': Snapshot, os: seq<Object>, n: int) {
    0 <= n < |os| && Called(s, s', os[..n + 1]) && WentThrough(s, s', n) && s'.log[|s.log| + n].answer == Failed
  }

  lemma CalledThen(s: Snapshot, s1: Snapshot, s2: Snapshot, a: seq<Object>, b: seq<Object>)
    requires Called(s, s1, a) && Called(s1, s2, b)
    ensures Called(s, s2, a + b)
    ensures WentThrough(s, s1, |a|) && WentThrough(s1, s2, |b|) ==> WentThrough(s, s2, |a + b|)
  {
    forall j | 0 <= j < |a + b| ensures s2.log[|s.log| + j].target == (a + b)[j] {
      if j < |a| {
        assert s2.log[|s.log| + j] == s1.log[|s.log| + j];
      }
    }
    forall i | |s.log| <= i < |s1.log| ensures s2.log[i] == s1.log[i] {}
  }

  /** What stops the second part of a list stops the list. */
  lemma StoppedLater(s: Snapshot, s1: Snapshot, s2: Snapshot, a: seq<Object>, b: seq<Object>, n: int)
    requires Called(s, s1, a) && WentThrough(s, s1, |a|) && StoppedAt(s1, s2, b, n)
    ensures StoppedAt(s, s2, a + b, |a| + n)
  {
    assert (a + b)[..|a| + n + 1] == a + b[..n + 1];
    CalledThen(s, s1, s2, a, b[..n + 1]);
    forall i | |s.log| <= i < |s.log| + |a| + n ensures s2.log[i].answer != Failed {
      if i < |s1.log| { assert s2.log[i] == s1.log[i]; }
    }
  }

  lemma StoppedEarlier(s: Snapshot, s': Snapshot, a: seq<Object>, b: seq<Object>, n: int)
    requires StoppedAt(s, s', a, n)
    ensures StoppedAt(s, s', a + b, n)
  {
    assert (a + b)[..n + 1] == a[..n + 1];
  }

  /** Two unforced stages after one another are one. */
  lemma RanThen(s: Snapshot, s1: Snapshot, s2: Snapshot, a: seq<Object>, b: seq<Object>, failed: bool)
    requires Ran(s, s1, a, false, false) && Ran(s1, s2, b, false, failed)
    ensures Ran(s, s2, a + b, false, failed)
  {
    if failed {
      var n :| StoppedAt(s1, s2, b, n);
      StoppedLater(s, s1, s2, a, b, n);
    } else {
      CalledThen(s, s1, s2, a, b);
    }
  }

  lemma RanShort(s: Snapshot, s': Snapshot, a: seq<Object>, b: seq<Object>)
    requires Ran(s, s', a, false, true)
    ensures Ran(s, s', a + b, false, true)
  {
    var n :| StoppedAt(s, s', a, n);
    StoppedEarlier(s, s', a, b, n);
  }

  // ----- The two clusters -----

  class ClusterPair {
    /** What exists in either cluster. */
    var objects: set<Object>
    var log: seq<Call>
    const hostNamespaceUid: string
    const memberNamespaceUid: string
    /** The secret the KubeFedCluster record points to. */
    const secret: string
    /** Which of the three lookups of a run will be answered. */
    const lookups: Lookups

    constructor (os: set<Object>, hostUid: string, memberUid: string, s: string, l: Lookups)
      ensures objects == os && log == [] && hostNamespaceUid == hostUid && memberNamespaceUid == memberUid && secret == s && lookups == l
      ensures Valid()
    {
      objects, log, hostNamespaceUid, memberNamespaceUid, secret, lookups := os, [], hostUid, memberUid, s, l;
    }

    function Now(): Snapshot
      reads this
    {
      Snapshot(log, objects)
    }

    ghost predicate Valid()
      reads this
    {
      Truthful(Now())
    }

    ghost predicate SameNamespace()
      reads this
    {
      hostNamespaceUid == memberNamespaceUid
    }

    /** A delete call. It may fail, and a failed call may still have deleted. */
    method Delete(o: Object) returns (a: Answer)
      requires Valid()
      modifies this
      ensures Valid()
      ensures log == old(log) + [Call(o, a)]
      ensures old(objects) - {o} <= objects <= old(objects)
      ensures a == NotFound ==> o !in old(objects)
      ensures Called(old(Now()), Now(), [o])
    {
      if * {
        a := Failed;
        if * {
          objects := objects - {o};
        }
      } else if o !in objects {
        a := NotFound;
      } else {
        a := Done;
        if * {
          objects := objects - {o};
        } else if !o.MemberNamespace? {
          objects := objects - {o};
        }
      }
      log := log + [Call(o, a)];
    }

    /** Namespace lookups; None is an error. */
    method HostNamespace() returns (uid: Option<string>)
      ensures uid == if lookups.host then Some(hostNamespaceUid) else None
    {
      return if lookups.host then Some(hostNamespaceUid) else None;
    }

    method MemberNamespaceOf(c: Config) returns (uid: Option<string>)
      ensures uid == if lookups.member && MemberNamespace(c.namespace) in objects then Some(memberNamespaceUid) else None
    {
      return if lookups.member && MemberNamespace(c.namespace) in objects then Some(memberNamespaceUid) else None;
    }

    method GetKubeFedCluster(c: Config) returns (l: Lookup)
      ensures l == if !lookups.record then Unknown else if KubeFedCluster(c.namespace, c.cluster) in objects then Present(secret) else Absent
    {
      if !lookups.record {
        return Unknown;
      } else if KubeFedCluster(c.namespace, c.cluster) !in objects {
        return Absent;
      }
      return Present(secret);
    }
  }

  /** Whether the host namespace, the member namespace and the record can be read. */
  datatype Lookups = Lookups(host: bool, member: bool, record: bool)

  // ----- What a run sets out to delete -----

  predicate NamespacesKnown(c: Config, l: Lookups, objects: set<Object>) {
    l.host && l.member && MemberNamespace(c.namespace) in objects
  }

  /** The member's kubefed namespace, if both namespaces are known and it is not the host's own. */
  function NamespacePlan(c: Config, l: Lookups, objects: set<Object>, same: bool): seq<Object> {
    if NamespacesKnown(c, l, objects) && !same then [MemberNamespace(c.namespace)] else []
  }

  /** The secret and then the record, if the record is found. */
  function RecordPlan(c: Config, l: Lookups, objects: set<Object>, secret: string): seq<Object> {
    if l.record && KubeFedCluster(c.namespace, c.cluster) in objects
    then [Secret(c.namespace, secret), KubeFedCluster(c.namespace, c.cluster)] else []
  }

  function MemberPlan(c: Config, l: Lookups, objects: set<Object>, same: bool, reachable: bool): seq<Object> {
    if reachable && !c.skipMember then RoleObjects(c) + [Account(c)] + NamespacePlan(c, l, objects, same) else []
  }

  /** Unjoining undoes joining: with every lookup answered, what it sets out to delete covers everything that joining
      created, in either scope, and holds nothing that joining could not have created. */
  lemma PlanCoversJoin(c: Config, objects: set<Object>, secret: string, o: Object)
    requires !c.skipMember && MemberNamespace(c.namespace) in objects && KubeFedCluster(c.namespace, c.cluster) in objects
    ensures var l := Lookups(true, true, true);
      o in MemberPlan(c, l, objects, false, true) + RecordPlan(c, l, objects, secret) <==>
      o in JoinCreates(c, true, secret) + JoinCreates(c, false, secret)
  {
    var l := Lookups(true, true, true);
    var account := c.cluster + "-" + c.host;
    assert ServiceAccountName(c) == account;
    assert RoleName(c) == "kubefed-controller-manager:" + account;
    assert HealthCheckRoleName(c) == "kubefed-controller-manager:" + c.namespace + ":healthcheck-" + account;
    assert o in MemberPlan(c, l, objects, false, true) <==>
      o in RoleObjects(c) || o == Account(c) || o == MemberNamespace(c.namespace);
  }

  /** What a run comes to. `reachable` is whether there is a member client. */
  ghost predicate Unjoined(c: Config, clients: Clients, l: Lookups, same: bool, secret: string, s: Snapshot, s': Snapshot, failed: bool) {
    var member := MemberPlan(c, l, s.objects, same, clients.member == Ready);
    var record := RecordPlan(c, l, s.objects, secret);
    if !clients.host || !clients.kubefed || (clients.member == Broken && !c.force) then failed && s' == s
    else if c.dryRun then !failed && s' == s
    else if c.force then Called(s, s', member + record) && (failed <==> !l.record)
    else if (member != [] && !NamespacesKnown(c, l, s.objects)) || !l.record then
      failed && exists n :: 0 <= n <= |member| && Called(s, s', member[..n])
    else Ran(s, s', member + record, false, failed)
  }

  lemma MemberPlanHasNoRecord(c: Config, l: Lookups, objects: set<Object>, same: bool, reachable: bool)
    ensures forall o :: o in MemberPlan(c, l, objects, same, reachable) ==> !o.KubeFedCluster?
  {}

  /** What was called and went through is confirmed. */
  lemma CalledIsConfirmed(s: Snapshot, s': Snapshot, os: seq<Object>, i: nat, k: nat)
    requires s.log == [] && Called(s, s', os) && WentThrough(s, s', i) && k < i <= |os|
    ensures Confirmed(s'.log[..i], os[k])
  {
    assert s'.log[..i][k] == s'.log[k] && s'.log[|s.log| + k].target == os[k];
  }

  lemma MemberConfirmed(c: Config, l: Lookups, objects: set<Object>, same: bool, s: Snapshot, s': Snapshot, os: seq<Object>, i: nat)
    requires NamespacesKnown(c, l, objects) && !c.skipMember && s.log == []
    requires MemberPlan(c, l, objects, same, true) <= os && |MemberPlan(c, l, objects, same, true)| <= i <= |os|
    requires Called(s, s', os) && WentThrough(s, s', i)
    ensures MemberClean(c, s'.log[..i], same)
  {
    var roles, member := RoleObjects(c), MemberPlan(c, l, objects, same, true);
    forall k | 0 <= k < |roles| ensures Confirmed(s'.log[..i], roles[k]) {
      assert member[k] == roles[k];
      CalledIsConfirmed(s, s', os, i, k);
    }
    assert member[|roles|] == Account(c);
    CalledIsConfirmed(s, s', os, i, |roles|);
    if !same {
      assert member[|roles| + 1] == MemberNamespace(c.namespace);
      CalledIsConfirmed(s, s', os, i, |roles| + 1);
    }
  }

  /** In the order of the plan the record comes last, so it is reached only when everything before went through. */
  lemma PlanOrder(c: Config, l: Lookups, objects: set<Object>, same: bool, secret: string, s: Snapshot, s': Snapshot, os: seq<Object>, n: nat)
    requires NamespacesKnown(c, l, objects) && !c.skipMember && s.log == []
    requires os <= MemberPlan(c, l, objects, same, true) + RecordPlan(c, l, objects, secret)
    requires Called(s, s', os) && |os| <= n + 1 && WentThrough(s, s', n)
    ensures RecordLast(c, s'.log, secret, same)
  {
    var member, record := MemberPlan(c, l, objects, same, true), RecordPlan(c, l, objects, secret);
    MemberPlanHasNoRecord(c, l, objects, same, true);
    forall i | 0 <= i < |s'.log| && s'.log[i].target.KubeFedCluster?
      ensures MemberClean(c, s'.log[..i], same) && Confirmed(s'.log[..i], Secret(c.namespace, secret))
    {
      assert s'.log[|s.log| + i].target == os[i] == (member + record)[i];
      assert forall k :: 0 <= k < |member| ==> member[k] in member;
      assert i == |member| + 1;
      assert member <= os;
      MemberConfirmed(c, l, objects, same, s, s', os, i);
      CalledIsConfirmed(s, s', os, i, |member|);
    }
  }

  /** Unjoin ordering: whatever fails, an unforced run that reaches the record has everything else behind it. */
  lemma RecordIsLast(c: Config, clients: Clients, l: Lookups, same: bool, secret: string, s: Snapshot, s': Snapshot, failed: bool)
    requires Unjoined(c, clients, l, same, secret, s, s', failed) && s.log == []
    requires !c.force && !c.dryRun && !c.skipMember && clients.member == Ready
    ensures RecordLast(c, s'.log, secret, same)
    ensures !failed ==> MemberClean(c, s'.log, same)
  {
    var member, record := MemberPlan(c, l, s.objects, same, true), RecordPlan(c, l, s.objects, secret);
    if !clients.host || !clients.kubefed {
    } else if !NamespacesKnown(c, l, s.objects) || !l.record {
      var n :| 0 <= n <= |member| && Called(s, s', member[..n]);
      MemberPlanHasNoRecord(c, l, s.objects, same, true);
      forall i | 0 <= i < |s'.log| ensures !s'.log[i].target.KubeFedCluster? {
        assert s'.log[|s.log| + i].target == member[..n][i] == member[i];
      }
    } else if failed {
      var n :| StoppedAt(s, s', member + record, n);
      PlanOrder(c, l, s.objects, same, secret, s, s', (member + record)[..n + 1], n);
    } else {
      PlanOrder(c, l, s.objects, same, secret, s, s', member + record, |member + record|);
      MemberConfirmed(c, l, s.objects, same, s, s', member + record, |member + record|);
      assert s'.log[..|member + record|] == s'.log;
    }
  }

  /** An unforced run that reports success has removed the record, or found none. */
  lemma SuccessRemovesRecord(c: Config, clients: Clients, l: Lookups, same: bool, secret: string, s: Snapshot, s': Snapshot)
    requires Unjoined(c, clients, l, same, secret, s, s', false) && Truthful(s') && !c.force && !c.dryRun
    ensures KubeFedCluster(c.namespace, c.cluster) !in s'.objects
  {
    var member, record := MemberPlan(c, l, s.objects, same, clients.member == Ready), RecordPlan(c, l, s.objects, secret);
    if KubeFedCluster(c.namespace, c.cluster) in s.objects {
      var last := |s.log| + |member| + 1;
      assert (member + record)[|member| + 1] == KubeFedCluster(c.namespace, c.cluster);
      assert s'.log[last].target == KubeFedCluster(c.namespace, c.cluster) && s'.log[last].answer != Failed;
    }
  }

  /** A forced run attempts every role object and the account, the namespace whenever both namespaces are known and
      differ, and the secret and then the record whenever the record is found; it fails only for want of that answer. */
  lemma ForcedTriesAll(c: Config, clients: Clients, l: Lookups, same: bool, secret: string, s: Snapshot, s': Snapshot, failed: bool)
    requires Unjoined(c, clients, l, same, secret, s, s', failed) && c.force && !c.dryRun && clients.host && clients.kubefed
    ensures failed <==> !l.record
    ensures clients.member == Ready && !c.skipMember ==>
      && (forall o :: o in RoleObjects(c) || o == Account(c) ==> Attempted(s'.log, o))
      && (NamespacesKnown(c, l, s.objects) && !same ==> Attempted(s'.log, MemberNamespace(c.namespace)))
    ensures l.record && KubeFedCluster(c.namespace, c.cluster) in s.objects ==>
      && |s'.log| >= 2 && s'.log[|s'.log| - 2].target == Secret(c.namespace, secret)
      && s'.log[|s'.log| - 1].target == KubeFedCluster(c.namespace, c.cluster)
  {
    var member, record := MemberPlan(c, l, s.objects, same, clients.member == Ready), RecordPlan(c, l, s.objects, secret);
    forall o | o in member ensures Attempted(s'.log, o) {
      CalledIsAttempted(s, s', member + record, o);
    }
    if record != [] {
      CalledAt(s, s', member, record);
    }
  }

  lemma CalledIsAttempted(s: Snapshot, s': Snapshot, os: seq<Object>, o: Object)
    requires Called(s, s', os) && o in os
    ensures Attempted(s'.log, o)
  {
    var k :| 0 <= k < |os| && os[k] == o;
    assert s'.log[|s.log| + k].target == os[k];
  }

  lemma CalledAt(s: Snapshot, s': Snapshot, a: seq<Object>, b: seq<Object>)
    requires Called(s, s', a + b) && |b| == 2
    ensures |s'.log| >= 2 && s'.log[|s'.log| - 2].target == b[0] && s'.log[|s'.log| - 1].target == b[1]
  {
    assert (a + b)[|a|] == b[0] && (a + b)[|a| + 1] == b[1];
    assert s'.log[|s.log| + (|a| + 1)].target == b[1];
  }

  /** What the ordering means for the clusters: once the record's deletion has been called, none of the
      objects it depends on exists any more. */
  lemma RecordGoneMeansAllGone(c: Config, s: Snapshot, secret: string, same: bool, o: Object)
    requires Truthful(s) && RecordLast(c, s.log, secret, same)
    requires Attempted(s.log, KubeFedCluster(c.namespace, c.cluster))
    requires o in RoleObjects(c) || o == Account(c) || o == Secret(c.namespace, secret)
    ensures o !in s.objects
  {}

  // ----- The code -----

  /** Deletes the objects in order; without force the first failure stops it. */
  method DeleteInOrder(p: ClusterPair, os: seq<Object>, force: bool) returns (failed: bool)
    requires p.Valid()
    modifies p
    ensures p.Valid() && Ran(old(p.Now()), p.Now(), os, force, failed)
  {
    ghost var start := p.Now();
    for n := 0 to |os|
      invariant p.Valid() && Called(start, p.Now(), os[..n])
      invariant !force ==> WentThrough(start, p.Now(), n)
    {
      ghost var before := p.Now();
      var a := p.Delete(os[n]);
      CalledThen(start, before, p.Now(), os[..n], [os[n]]);
      assert os[..n + 1] == os[..n] + [os[n]];
      assert p.log[|start.log| + n].answer == a;
      if a == Failed {
        if !force {
          assert StoppedAt(start, p.Now(), os, n);
          return true;
        }
      }
    }
    assert os[..|os|] == os;
    return false;
  }

  method DeleteClusterRoleAndBinding(p: ClusterPair, c: Config) returns (failed: bool)
    requires p.Valid()
    modifies p
    ensures p.Valid()
    ensures c.dryRun ==> !failed && p.Now() == old(p.Now())
    ensures !c.dryRun ==> Ran(old(p.Now()), p.Now(), RoleObjects(c), c.force, failed)
  {
    if c.dryRun {
      return false;
    }
    failed := DeleteInOrder(p, RoleObjects(c), c.force);
  }

  /** Fails, with or without force, exactly when the one call does. */
  method DeleteServiceAccount(p: ClusterPair, c: Config) returns (failed: bool)
    requires p.Valid()
    modifies p
    ensures p.Valid()
    ensures c.dryRun ==> !failed && p.Now() == old(p.Now())
    ensures !c.dryRun ==> Called(old(p.Now()), p.Now(), [Account(c)]) && Ran(old(p.Now()), p.Now(), [Account(c)], false, failed)
  {
    if c.dryRun {
      return false;
    }
    ghost var start := p.Now();
    var a := p.Delete(Account(c));
    if a == Failed {
      assert [Account(c)][..1] == [Account(c)];
      assert StoppedAt(start, p.Now(), [Account(c)], 0);
    }
    return a == Failed;
  }

  method DeleteRBACResources(p: ClusterPair, c: Config) returns (failed: bool)
    requires p.Valid()
    modifies p
    ensures p.Valid()
    ensures c.dryRun ==> !failed && p.Now() == old(p.Now())
    ensures !c.dryRun && c.force ==> Called(old(p.Now()), p.Now(), RoleObjects(c) + [Account(c)])
    ensures !c.dryRun && !c.force ==> Ran(old(p.Now()), p.Now(), RoleObjects(c) + [Account(c)], false, failed)
  {
    ghost var start := p.Now();
    failed := DeleteClusterRoleAndBinding(p, c);
    if failed {
      RanShort(start, p.Now(), RoleObjects(c), [Account(c)]);
      return;
    }
    ghost var middle := p.Now();
    failed := DeleteServiceAccount(p, c);
    if !c.dryRun {
      CalledThen(start, middle, p.Now(), RoleObjects(c), [Account(c)]);
      if !c.force {
        RanThen(start, middle, p.Now(), RoleObjects(c), [Account(c)], failed);
      }
    }
  }

  /** The host's own namespace is never deleted; a namespace that cannot be looked up is a failure. */
  method DeleteFedNamespace(p: ClusterPair, c: Config) returns (failed: bool)
    requires p.Valid()
    modifies p
    ensures p.Valid()
    ensures c.dryRun ==> !failed && p.Now() == old(p.Now())
    ensures !c.dryRun ==> Called(old(p.Now()), p.Now(), NamespacePlan(c, p.lookups, old(p.objects), p.SameNamespace()))
    ensures !c.dryRun && !NamespacesKnown(c, p.lookups, old(p.objects)) ==> failed
    ensures !c.dryRun && NamespacesKnown(c, p.lookups, old(p.objects)) ==>
      Ran(old(p.Now()), p.Now(), NamespacePlan(c, p.lookups, old(p.objects), p.SameNamespace()), false, failed)
  {
    if c.dryRun {
      return false;
    }
    ghost var start := p.Now();
    var host := p.HostNamespace();
    if host.None? {
      return true;
    }
    var member := p.MemberNamespaceOf(c);
    if member.None? {
      return true;
    }
    if host.value == member.value {
      return false;
    }
    var a := p.Delete(MemberNamespace(c.namespace));
    if a == Failed {
      assert [MemberNamespace(c.namespace)][..1] == [MemberNamespace(c.namespace)];
      assert StoppedAt(start, p.Now(), [MemberNamespace(c.namespace)], 0);
    }
    return a == Failed;
  }

  /** Secret, then record, as in the plan; only an unanswered lookup makes a forced run fail. */
  method DeleteFederatedClusterAndSecret(p: ClusterPair, c: Config) returns (failed: bool)
    requires p.Valid()
    modifies p
    ensures p.Valid()
    ensures c.dryRun ==> !failed && p.Now() == old(p.Now())
    ensures !c.dryRun && !p.lookups.record ==> failed && p.Now() == old(p.Now())
    ensures !c.dryRun && p.lookups.record ==>
      Ran(old(p.Now()), p.Now(), RecordPlan(c, p.lookups, old(p.objects), p.secret), c.force, failed)
  {
    if c.dryRun {
      return false;
    }
    var l := p.GetKubeFedCluster(c);
    if l.Absent? {
      return false;
    }
    if l.Unknown? {
      return true;
    }
    ghost var start := p.Now();
    ghost var secret, record := Secret(c.namespace, l.secret), KubeFedCluster(c.namespace, c.cluster);
    var a := p.Delete(Secret(c.namespace, l.secret));
    ghost var middle := p.Now();
    if a == Failed && !c.force {
      assert [secret, record][..1] == [secret];
      assert StoppedAt(start, p.Now(), [secret, record], 0);
      return true;
    }
    a := p.Delete(KubeFedCluster(c.namespace, c.cluster));
    CalledThen(start, middle, p.Now(), [secret], [record]);
    assert [secret] + [record] == [secret, record];
    if a == Failed && !c.force {
      assert [secret, record][..2] == [secret, record];
      assert StoppedAt(start, p.Now(), [secret, record], 1);
    }
    return a == Failed && !c.force;
  }

  /** The part of a run in the member cluster, when there is a client for it. */
  method CleanMember(p: ClusterPair, c: Config) returns (failed: bool)
    requires p.Valid() && !c.skipMember
    modifies p
    ensures p.Valid()
    ensures c.dryRun ==> !failed && p.Now() == old(p.Now())
    ensures !c.dryRun && c.force ==> !failed && Called(old(p.Now()), p.Now(), MemberPlan(c, p.lookups, old(p.objects), p.SameNamespace(), true))
    ensures !c.dryRun && !c.force && NamespacesKnown(c, p.lookups, old(p.objects)) ==>
      Ran(old(p.Now()), p.Now(), MemberPlan(c, p.lookups, old(p.objects), p.SameNamespace(), true), false, failed)
    ensures !c.dryRun && !c.force && !NamespacesKnown(c, p.lookups, old(p.objects)) ==>
      failed && (Ran(old(p.Now()), p.Now(), MemberPlan(c, p.lookups, old(p.objects), p.SameNamespace(), true), false, true)
                 || Called(old(p.Now()), p.Now(), MemberPlan(c, p.lookups, old(p.objects), p.SameNamespace(), true)))
  {
    ghost var start, rbac := p.Now(), RoleObjects(c) + [Account(c)];
    ghost var namespace := NamespacePlan(c, p.lookups, p.objects, p.SameNamespace());
    failed := DeleteRBACResources(p, c);
    if failed && !c.force {
      RanShort(start, p.Now(), rbac, namespace);
      return;
    }
    ghost var middle := p.Now();
    assert MemberNamespace(c.namespace) !in rbac;
    failed := DeleteFedNamespace(p, c);
    if !c.dryRun {
      CalledThen(start, middle, p.Now(), rbac, namespace);
      if !c.force && NamespacesKnown(c, p.lookups, start.objects) {
        RanThen(start, middle, p.Now(), rbac, namespace, failed);
      }
    }
    if c.force {
      failed := false;
    }
  }

  /** unjoinCluster */
  method UnjoinCluster(p: ClusterPair, c: Config, clients: Clients) returns (failed: bool)
    requires p.Valid()
    modifies p
    ensures p.Valid()
    ensures Unjoined(c, clients, p.lookups, p.SameNamespace(), p.secret, old(p.Now()), p.Now(), failed)
  {
    if !clients.host {
      return true;
    }
    if clients.member == Broken && !c.force {
      return true;
    }
    if !clients.kubefed {
      return true;
    }
    ghost var start := p.Now();
    ghost var member := MemberPlan(c, p.lookups, p.objects, p.SameNamespace(), clients.member == Ready);
    if clients.member == Ready && !c.skipMember {
      failed := CleanMember(p, c);
      if failed {
        StoppedInMember(c, clients, p.lookups, p.SameNamespace(), p.secret, start, p.Now());
        return;
      }
    }
    ghost var middle, record := p.Now(), RecordPlan(c, p.lookups, start.objects, p.secret);
    assert KubeFedCluster(c.namespace, c.cluster) in start.objects <==> KubeFedCluster(c.namespace, c.cluster) in middle.objects by {
      MemberPlanHasNoRecord(c, p.lookups, start.objects, p.SameNamespace(), clients.member == Ready);
    }
    failed := DeleteFederatedClusterAndSecret(p, c);
    if !c.dryRun {
      if !p.lookups.record {
        assert member[..|member|] == member && record == [] && member + record == member;
      } else if c.force {
        CalledThen(start, middle, p.Now(), member, record);
      } else {
        RanThen(start, middle, p.Now(), member, record, failed);
      }
    }
  }

  /** An unforced run that does not get through the member part ends there. */
  lemma StoppedInMember(c: Config, clients: Clients, l: Lookups, same: bool, secret: string, s: Snapshot, s': Snapshot)
    requires clients.host && clients.kubefed && clients.member == Ready && !c.skipMember && !c.force && !c.dryRun
    requires var member := MemberPlan(c, l, s.objects, same, true);
      if NamespacesKnown(c, l, s.objects) then Ran(s, s', member, false, true)
      else Ran(s, s', member, false, true) || Called(s, s', member)
    ensures Unjoined(c, clients, l, same, secret, s, s', true)
  {
    var member, record := MemberPlan(c, l, s.objects, same, true), RecordPlan(c, l, s.objects, secret);
    if Ran(s, s', member, false, true) {
      RanShort(s, s', member, record);
      var n :| StoppedAt(s, s', member, n);
      assert Called(s, s', member[..n + 1]);
    } else {
      assert member[..|member|] == member;
    }
  }
}
