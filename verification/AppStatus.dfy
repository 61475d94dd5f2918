/** Computing an application's status from its components, and when a reconcile writes it. */
module AppStatus {
  import opened Text
  import opened Conditions

  /** A component as fetched: what its status function reports, and its error if it has one. */
  datatype Resource = Resource(group: string, kind: string, name: string, link: string, status: string, err: Option<string>)

  datatype ObjectStatus = ObjectStatus(group: string, kind: string, name: string, link: string, status: string)

  datatype Status = Status(objects: seq<ObjectStatus>, ready: string, conditions: seq<Condition>, observedGeneration: int)

  const READY := "Ready"
  const ERROR := "Error"
  const UNKNOWN_MESSAGE := "failed to aggregate all components' statuses, check the Error condition for details"

  function ObjectStatusOf(r: Resource): ObjectStatus {
    ObjectStatus(r.group, r.kind, r.name, r.link, r.status)
  }

  function StatusesOf(rs: seq<Resource>): seq<ObjectStatus> {
    seq(|rs|, i requires 0 <= i < |rs| => ObjectStatusOf(rs[i]))
  }

  function ErrorsOf(rs: seq<Resource>): seq<string> {
    Collect((r: Resource) => r.err, rs)
  }

  /** How many objects are ready. */
  function ReadyCount(os: seq<ObjectStatus>): (n: nat)
    ensures n <= |os|
  {
    if os == [] then 0
    else ReadyCount(os[..|os| - 1]) + (if os[|os| - 1].status == READY then 1 else 0)
  }

  lemma {:induction false} AllReady(os: seq<ObjectStatus>)
    ensures ReadyCount(os) == |os| <==> forall i :: 0 <= i < |os| ==> os[i].status == READY
  {
    if os != [] {
      var n := |os| - 1;
      AllReady(os[..n]);
      assert forall i :: 0 <= i < n ==> os[i] == os[..n][i];
    }
  }

  /** Status, reason and message of the ready and of the error condition. */
  function ReadyVerdict(os: seq<ObjectStatus>, errs: seq<string>): (string, string, string) {
    if errs != [] then
      ("Unknown", "ComponentsReadyUnknown", UNKNOWN_MESSAGE)
    else if ReadyCount(os) == |os| then ("True", "ComponentsReady", "all components ready")
    else ("False", "ComponentsNotReady", Itoa(|os| - ReadyCount(os)) + " components not ready")
  }

  function ErrorVerdict(errs: seq<string>, aggregate: seq<string> -> string): (string, string, string) {
    if errs != [] then ("True", "ErrorSeen", aggregate(errs)) else ("False", "NoError", "No error seen")
  }

  /** The status a reconcile computes from the stored one; the clock is read once per condition. */
  function NewStatus(s: Status, rs: seq<Resource>, listErrs: seq<string>, aggregate: seq<string> -> string,
                     generation: int, t1: int, t2: int): Status
  {
    var os, errs := StatusesOf(rs), listErrs + ErrorsOf(rs);
    var (rstatus, rreason, rmessage) := ReadyVerdict(os, errs);
    var (estatus, ereason, emessage) := ErrorVerdict(errs, aggregate);
    var withReady := SetCondition(s.conditions, READY, rstatus, rreason, rmessage, t1);
    Status(os, Itoa(ReadyCount(os)) + "/" + Itoa(|os|),
           SetCondition(withReady, ERROR, estatus, ereason, emessage, t2), generation)
  }

  /** Two verdicts on two types, delivered again at any later time, change nothing. */
  lemma SetBothAgain(cs: seq<Condition>, a: string, b: string, va: (string, string, string), vb: (string, string, string),
                     t1: int, t2: int, t3: int, t4: int)
    requires a != b
    ensures var once := SetCondition(SetCondition(cs, a, va.0, va.1, va.2, t1), b, vb.0, vb.1, vb.2, t2);
      SetCondition(SetCondition(once, a, va.0, va.1, va.2, t3), b, vb.0, vb.1, vb.2, t4) == once
  {
    var first := SetCondition(cs, a, va.0, va.1, va.2, t1);
    var once := SetCondition(first, b, vb.0, vb.1, vb.2, t2);
    SetFrame(cs, a, va.0, va.1, va.2, t1);
    SetFrame(first, b, vb.0, vb.1, vb.2, t2);
    assert Current(once, a) == Current(first, a);
    SetAgain(once, a, va.0, va.1, va.2, t3);
    SetAgain(once, b, vb.0, vb.1, vb.2, t4);
  }

  /** Quiescence: for unchanged components, errors and generation, the status computed from a computed status
      is that status, whatever conditions (even several of one type) were there at the start. */
  lemma Quiescent(s: Status, rs: seq<Resource>, listErrs: seq<string>, aggregate: seq<string> -> string, generation: int,
                  t1: int, t2: int, t3: int, t4: int)
    ensures var once := NewStatus(s, rs, listErrs, aggregate, generation, t1, t2);
      NewStatus(once, rs, listErrs, aggregate, generation, t3, t4) == once
  {
    var os, errs := StatusesOf(rs), listErrs + ErrorsOf(rs);
    assert READY[0] != ERROR[0];
    SetBothAgain(s.conditions, READY, ERROR, ReadyVerdict(os, errs), ErrorVerdict(errs, aggregate), t1, t2, t3, t4);
  }

  // ----- What the status says -----

  /** Something went wrong while listing or inspecting the components. */
  predicate Troubled(rs: seq<Resource>, listErrs: seq<string>) {
    listErrs != [] || exists i :: 0 <= i < |rs| && rs[i].err.Some?
  }

  lemma TroubledIs(rs: seq<Resource>, listErrs: seq<string>)
    ensures listErrs + ErrorsOf(rs) != [] <==> Troubled(rs, listErrs)
  {
    NothingFound((r: Resource) => r.err, rs);
  }

  /** Positions of the ready components. */
  function ReadyAt(rs: seq<Resource>): set<nat> {
    set i: nat | i < |rs| && rs[i].status == "Ready"
  }

  lemma {:induction false} ReadyCountIs(rs: seq<Resource>)
    ensures ReadyCount(StatusesOf(rs)) == |ReadyAt(rs)|
  {
    if rs != [] {
      var n := |rs| - 1;
      ReadyCountIs(rs[..n]);
      assert StatusesOf(rs)[..n] == StatusesOf(rs[..n]);
      var before := ReadyAt(rs[..n]);
      assert ReadyAt(rs) == if rs[n].status == "Ready" then before + {n} else before;
    }
  }

  lemma AllReadyIs(rs: seq<Resource>)
    ensures |ReadyAt(rs)| == |rs| <==> forall i :: 0 <= i < |rs| ==> rs[i].status == "Ready"
  {
    ReadyCountIs(rs);
    var os := StatusesOf(rs);
    AllReady(os);
    assert forall i :: 0 <= i < |rs| ==> os[i].status == rs[i].status;
  }

  /** Component list, readiness figure and generation. */
  lemma StatusLists(s: Status, rs: seq<Resource>, listErrs: seq<string>, aggregate: seq<string> -> string, generation: int, t1: int, t2: int)
    ensures var n := NewStatus(s, rs, listErrs, aggregate, generation, t1, t2);
      && |n.objects| == |rs|
      && (forall i :: 0 <= i < |rs| ==>
            && n.objects[i].group == rs[i].group && n.objects[i].kind == rs[i].kind && n.objects[i].name == rs[i].name
            && n.objects[i].link == rs[i].link && n.objects[i].status == rs[i].status)
      && n.ready == Itoa(|ReadyAt(rs)|) + "/" + Itoa(|rs|)
      && n.observedGeneration == generation
  {
    ReadyCountIs(rs);
  }

  /** Both conditions are there afterwards with what was said last, and no others have changed. */
  lemma VerdictsStand(cs: seq<Condition>, a: string, b: string, va: (string, string, string), vb: (string, string, string), t1: int, t2: int)
    requires a != b
    ensures var after := SetCondition(SetCondition(cs, a, va.0, va.1, va.2, t1), b, vb.0, vb.1, vb.2, t2);
      && Current(after, a).Some? && Says(Current(after, a).value, va.0, va.1, va.2)
      && Current(after, b).Some? && Says(Current(after, b).value, vb.0, vb.1, vb.2)
      && forall t :: t != a && t != b ==> Current(after, t) == Current(cs, t)
  {
    SetFrame(cs, a, va.0, va.1, va.2, t1);
    SetFrame(SetCondition(cs, a, va.0, va.1, va.2, t1), b, vb.0, vb.1, vb.2, t2);
  }

  /** Ready is unknown when there is trouble, true when all components are ready, and else false with their number;
      error is true exactly when there is trouble, with all errors: those of listing and then those of the components
      in order. Conditions of other types stay. */
  lemma ReadyMeansReady(s: Status, rs: seq<Resource>, listErrs: seq<string>, aggregate: seq<string> -> string, generation: int, t1: int, t2: int)
    returns (at: seq<nat>, errs: seq<string>)
    ensures Places((r: Resource) => r.err, rs, at, errs)
    ensures var cs := NewStatus(s, rs, listErrs, aggregate, generation, t1, t2).conditions;
      && Current(cs, "Ready").Some? && Current(cs, "Error").Some?
      && (var c := Current(cs, "Ready").value;
          if Troubled(rs, listErrs) then Says(c, "Unknown", "ComponentsReadyUnknown", UNKNOWN_MESSAGE)
          else if forall i :: 0 <= i < |rs| ==> rs[i].status == "Ready" then Says(c, "True", "ComponentsReady", "all components ready")
          else Says(c, "False", "ComponentsNotReady", Itoa(|rs| - |ReadyAt(rs)|) + " components not ready"))
      && (var c := Current(cs, "Error").value;
          if Troubled(rs, listErrs) then Says(c, "True", "ErrorSeen", aggregate(listErrs + errs))
          else Says(c, "False", "NoError", "No error seen"))
      && forall t :: t != "Ready" && t != "Error" ==> Current(cs, t) == Current(s.conditions, t)
  {
    var f := (r: Resource) => r.err;
    at := CollectPlaces(f, rs);
    errs := ErrorsOf(rs);
    assert errs == Collect(f, rs);
    assert READY[0] != ERROR[0];
    TroubledIs(rs, listErrs);
    ReadyCountIs(rs);
    AllReadyIs(rs);
    VerdictsStand(s.conditions, READY, ERROR, ReadyVerdict(StatusesOf(rs), listErrs + errs),
                  ErrorVerdict(listErrs + errs, aggregate), t1, t2);
  }

  // ----- The code -----

  method ObjectStatuses(rs: seq<Resource>, listErrs: seq<string>) returns (os: seq<ObjectStatus>, errs: seq<string>)
    ensures os == StatusesOf(rs) && errs == listErrs + ErrorsOf(rs)
  {
    os, errs := [], listErrs;
    for i := 0 to |rs|
      invariant |os| == i && forall j :: 0 <= j < i ==> os[j] == ObjectStatusOf(rs[j])
      invariant errs == listErrs + ErrorsOf(rs[..i])
    {
      CollectNext((r: Resource) => r.err, rs, i);
      if rs[i].err.Some? {
        errs := errs + [rs[i].err.value];
      }
      os := os + [ObjectStatusOf(rs[i])];
    }
    assert rs[..|rs|] == rs;
  }

  method AggregateReady(os: seq<ObjectStatus>) returns (ready: bool, count: nat)
    ensures count == ReadyCount(os)
    ensures ready <==> forall i :: 0 <= i < |os| ==> os[i].status == READY
  {
    count := 0;
    for i := 0 to |os|
      invariant count == ReadyCount(os[..i])
    {
      assert os[..i + 1][..i] == os[..i];
      if os[i].status == READY {
        count := count + 1;
      }
    }
    assert os[..|os|] == os;
    AllReady(os);
    ready := count == |os|;
  }

  method SetReadiness(status: ApplicationStatus, os: seq<ObjectStatus>, errs: seq<string>, ready: bool, count: nat, now: int)
    requires count == ReadyCount(os) && (ready <==> count == |os|)
    modifies status
    ensures var v := ReadyVerdict(os, errs);
      status.conditions == SetCondition(old(status.conditions), READY, v.0, v.1, v.2, now)
  {
    if errs != [] {
      status.Set(READY, "Unknown", "ComponentsReadyUnknown", UNKNOWN_MESSAGE, now);
    } else if ready {
      status.Set(READY, "True", "ComponentsReady", "all components ready", now);
    } else {
      status.Set(READY, "False", "ComponentsNotReady", Itoa(|os| - count) + " components not ready", now);
    }
  }

  method SetError(status: ApplicationStatus, errs: seq<string>, aggregate: seq<string> -> string, now: int)
    modifies status
    ensures var v := ErrorVerdict(errs, aggregate);
      status.conditions == SetCondition(old(status.conditions), ERROR, v.0, v.1, v.2, now)
  {
    if errs != [] {
      status.Set(ERROR, "True", "ErrorSeen", aggregate(errs), now);
    } else {
      status.Set(ERROR, "False", "NoError", "No error seen", now);
    }
  }

  method GetNewApplicationStatus(s: Status, rs: seq<Resource>, listErrs: seq<string>, aggregate: seq<string> -> string,
                                 generation: int, t1: int, t2: int) returns (r: Status)
    ensures r == NewStatus(s, rs, listErrs, aggregate, generation, t1, t2)
  {
    var os, errs := ObjectStatuses(rs, listErrs);
    var ready, count := AggregateReady(os);
    AllReady(os);
    var status := new ApplicationStatus(s.conditions);
    SetReadiness(status, os, errs, ready, count, t1);
    SetError(status, errs, aggregate, t2);
    r := Status(os, Itoa(count) + "/" + Itoa(|os|), status.conditions, generation);
  }

  /** What is stored after a reconcile that computed `computed`. */
  function Stored(s: Status, computed: Status, deleting: bool, accepted: bool): Status {
    if deleting || !accepted then s else computed
  }

  /** One application object in the store. */
  class Application {
    var status: Status
    var generation: int
    var deleting: bool
    /** Status updates the store has accepted. */
    var statusWrites: nat

    constructor (s: Status, g: int)
      ensures status == s && generation == g && !deleting && statusWrites == 0
    {
      status, generation, deleting, statusWrites := s, g, false, 0;
    }

    /** Reconcile once the application is found and selected; `accepted` is whether the store takes the update. */
    method Reconcile(rs: seq<Resource>, listErrs: seq<string>, aggregate: seq<string> -> string, t1: int, t2: int, accepted: bool)
      returns (failed: bool)
      modifies this`status, this`statusWrites
      ensures status == Stored(old(status), NewStatus(old(status), rs, listErrs, aggregate, generation, t1, t2), deleting, accepted)
      ensures statusWrites == old(statusWrites) + if status == old(status) then 0 else 1
      ensures failed <==> !deleting && !accepted
                          && NewStatus(old(status), rs, listErrs, aggregate, generation, t1, t2) != old(status)
    {
      if deleting {
        return false;
      }
      var computed := GetNewApplicationStatus(status, rs, listErrs, aggregate, generation, t1, t2);
      failed := Write(computed, accepted);
    }

    /** Writes the status unless it is the stored one. */
    method Write(computed: Status, accepted: bool) returns (failed: bool)
      modifies this`status, this`statusWrites
      ensures status == Stored(old(status), computed, false, accepted)
      ensures statusWrites == old(statusWrites) + if status == old(status) then 0 else 1
      ensures failed <==> !accepted && computed != old(status)
    {
      if computed == status {
        return false;
      }
      if accepted {
        status := computed;
        statusWrites := statusWrites + 1;
      }
      return !accepted;
    }
  }

  /** After `n` reconciles from `s`: `first` is the first of them whose update the store took, or `n`, and the status is
      the one computed then. */
  ghost predicate Repeated(compute: (Status, (int, int)) -> Status, s: Status, deleting: bool,
                           clock: seq<(int, int)>, accepted: seq<bool>, n: nat, first: nat, status: Status)
    requires |clock| == |accepted|
  {
    && first <= n <= |accepted| && (forall j :: 0 <= j < first ==> !accepted[j]) && (first < n ==> accepted[first])
    && status == if deleting || first == n then s else compute(s, clock[first])
  }

  lemma RepeatStep(compute: (Status, (int, int)) -> Status, s: Status, deleting: bool,
                   clock: seq<(int, int)>, accepted: seq<bool>, n: nat, first: nat, status: Status) returns (first': nat)
    requires |clock| == |accepted| && n < |accepted|
    requires Repeated(compute, s, deleting, clock, accepted, n, first, status)
    requires forall t, t' :: compute(compute(s, t), t') == compute(s, t)
    ensures var status' := Stored(status, compute(status, clock[n]), deleting, accepted[n]);
      Repeated(compute, s, deleting, clock, accepted, n + 1, first', status') && (status == s || status' == status)
  {
    first' := if first == n && !accepted[n] then n + 1 else first;
  }

  /** Any number of reconciles of an application whose components, errors and generation stay the same: the status is
      written at most once, by the first reconcile whose update the store takes, and is final from then on. */
  method ReconcileRepeatedly(app: Application, rs: seq<Resource>, listErrs: seq<string>, aggregate: seq<string> -> string,
                             clock: seq<(int, int)>, accepted: seq<bool>) returns (ghost first: nat)
    requires |clock| == |accepted|
    modifies app`status, app`statusWrites
    ensures first <= |accepted| && (forall j :: 0 <= j < first ==> !accepted[j]) && (first < |accepted| ==> accepted[first])
    ensures app.status ==
      if app.deleting || first == |accepted| then old(app.status)
      else NewStatus(old(app.status), rs, listErrs, aggregate, app.generation, clock[first].0, clock[first].1)
    ensures app.statusWrites == old(app.statusWrites) + if app.status == old(app.status) then 0 else 1
  {
    ghost var s, generation := app.status, app.generation;
    ghost var compute := (st: Status, t: (int, int)) => NewStatus(st, rs, listErrs, aggregate, generation, t.0, t.1);
    forall t, t' ensures compute(compute(s, t), t') == compute(s, t) {
      Quiescent(s, rs, listErrs, aggregate, generation, t.0, t.1, t'.0, t'.1);
    }
    first := 0;
    for n := 0 to |accepted|
      invariant Repeated(compute, s, app.deleting, clock, accepted, n, first, app.status)
      invariant app.statusWrites == old(app.statusWrites) + if app.status == s then 0 else 1
    {
      first := RepeatStep(compute, s, app.deleting, clock, accepted, n, first, app.status);
      var failed := app.Reconcile(rs, listErrs, aggregate, clock[n].0, clock[n].1, accepted[n]);
    }
  }
}
