/** Application conditions: setting them, and what their timestamps mean over a whole history. */
module Conditions {
  import opened Text

  datatype Condition = Condition(
    ctype: string, lastUpdate: int, lastTransition: int, status: string, reason: string, message: string)

  predicate Says(c: Condition, status: string, reason: string, message: string) {
    c.status == status && c.reason == reason && c.message == message
  }

  function Revised(c: Condition, status: string, reason: string, message: string, now: int): Condition {
    if Says(c, status, reason, message) then c
    else Condition(c.ctype, now, if c.status == status then c.lastTransition else now, status, reason, message)
  }

  /** Position of the last condition of a type, |cs| if there is none. */
  function LastOf(cs: seq<Condition>, ctype: string): (i: nat)
    ensures i <= |cs| && (i < |cs| ==> cs[i].ctype == ctype)
    ensures forall j :: 0 <= j < |cs| && cs[j].ctype == ctype ==> i < |cs| && j <= i
  {
    if cs == [] then 0
    else
      var n := |cs| - 1;
      if cs[n].ctype == ctype then n
      else
        var i := LastOf(cs[..n], ctype);
        if i < n then i else |cs|
  }

  function SetCondition(cs: seq<Condition>, ctype: string, status: string, reason: string, message: string, now: int): seq<Condition> {
    var i := LastOf(cs, ctype);
    if i == |cs| then cs + [Condition(ctype, now, now, status, reason, message)]
    else cs[i := Revised(cs[i], status, reason, message, now)]
  }

  // ----- One call -----

  /** The condition that counts for a type: the last one. */
  function Current(cs: seq<Condition>, ctype: string): Option<Condition> {
    var i := LastOf(cs, ctype);
    if i < |cs| then Some(cs[i]) else None
  }

  lemma LastOfIs(cs: seq<Condition>, ctype: string, i: nat)
    requires i < |cs| && cs[i].ctype == ctype && forall j :: i < j < |cs| ==> cs[j].ctype != ctype
    ensures LastOf(cs, ctype) == i
  {}

  lemma SetFrame(cs: seq<Condition>, ctype: string, status: string, reason: string, message: string, now: int)
    ensures var after := SetCondition(cs, ctype, status, reason, message, now);
      && Current(after, ctype).Some? && Says(Current(after, ctype).value, status, reason, message)
      && (forall t :: t != ctype ==> Current(after, t) == Current(cs, t))
      && Current(after, ctype).value ==
         if Current(cs, ctype).None? then Condition(ctype, now, now, status, reason, message)
         else Revised(Current(cs, ctype).value, status, reason, message, now)
  {
    var i := LastOf(cs, ctype);
    var after := SetCondition(cs, ctype, status, reason, message, now);
    LastOfIs(after, ctype, i);
    forall t | t != ctype ensures Current(after, t) == Current(cs, t) {
      var j := LastOf(cs, t);
      if j < |cs| {
        LastOfIs(after, t, j);
      }
    }
  }

  /** Saying again what the condition says changes nothing, whatever the clock. */
  lemma SetAgain(cs: seq<Condition>, ctype: string, status: string, reason: string, message: string, now: int)
    requires Current(cs, ctype).Some? && Says(Current(cs, ctype).value, status, reason, message)
    ensures SetCondition(cs, ctype, status, reason, message, now) == cs
  {}

  // ----- Whole histories -----

  datatype Call = Call(ctype: string, status: string, reason: string, message: string, now: int)

  function Replay(calls: seq<Call>): seq<Condition> {
    if calls == [] then []
    else
      var n := |calls| - 1;
      SetCondition(Replay(calls[..n]), calls[n].ctype, calls[n].status, calls[n].reason, calls[n].message, calls[n].now)
  }

  /** The latest call for a type. */
  function LastCall(calls: seq<Call>, ctype: string): Option<Call> {
    if calls == [] then None
    else
      var n := |calls| - 1;
      if calls[n].ctype == ctype then Some(calls[n]) else LastCall(calls[..n], ctype)
  }

  /** Time of the latest call that created the condition or changed its status. */
  function StatusChanged(calls: seq<Call>, ctype: string): Option<int> {
    if calls == [] then None
    else
      var n := |calls| - 1;
      var before := LastCall(calls[..n], ctype);
      if calls[n].ctype == ctype && (before.None? || before.value.status != calls[n].status) then Some(calls[n].now)
      else StatusChanged(calls[..n], ctype)
  }

  /** Time of the latest call that created the condition or changed anything it says. */
  function AnythingChanged(calls: seq<Call>, ctype: string): Option<int> {
    if calls == [] then None
    else
      var n := |calls| - 1;
      var before := LastCall(calls[..n], ctype);
      if calls[n].ctype == ctype && (before.None? || before.value.(now := calls[n].now) != calls[n]) then Some(calls[n].now)
      else AnythingChanged(calls[..n], ctype)
  }

  predicate OnePerType(cs: seq<Condition>) {
    forall i, j :: 0 <= i < j < |cs| ==> cs[i].ctype != cs[j].ctype
  }

  lemma SetKeepsOnePerType(cs: seq<Condition>, ctype: string, status: string, reason: string, message: string, now: int)
    requires OnePerType(cs)
    ensures OnePerType(SetCondition(cs, ctype, status, reason, message, now))
  {}

  /** Condition history: after any sequence of calls there is one condition per type ever set, and it says what the
      latest call said, with the time of the latest change of anything and of the latest change of status. */
  lemma {:induction false} History(calls: seq<Call>, ctype: string)
    ensures OnePerType(Replay(calls))
    ensures Current(Replay(calls), ctype).Some? <==> LastCall(calls, ctype).Some?
    ensures LastCall(calls, ctype).Some? ==>
      var c := LastCall(calls, ctype).value;
      && c.ctype == ctype && StatusChanged(calls, ctype).Some? && AnythingChanged(calls, ctype).Some?
      && Current(Replay(calls), ctype) == Some(Condition(
           ctype, AnythingChanged(calls, ctype).value, StatusChanged(calls, ctype).value, c.status, c.reason, c.message))
  {
    if calls != [] {
      var n := |calls| - 1;
      var c := calls[n];
      History(calls[..n], ctype);
      SetKeepsOnePerType(Replay(calls[..n]), c.ctype, c.status, c.reason, c.message, c.now);
      SetFrame(Replay(calls[..n]), c.ctype, c.status, c.reason, c.message, c.now);
    }
  }

  predicate ClockRuns(calls: seq<Call>) {
    forall i, j :: 0 <= i < j < |calls| ==> calls[i].now <= calls[j].now
  }

  lemma {:induction false} ChangeTimes(calls: seq<Call>, ctype: string, now: int)
    requires ClockRuns(calls) && forall i :: 0 <= i < |calls| ==> calls[i].now <= now
    ensures StatusChanged(calls, ctype).Some? <==> AnythingChanged(calls, ctype).Some?
    ensures StatusChanged(calls, ctype).Some? ==> StatusChanged(calls, ctype).value <= AnythingChanged(calls, ctype).value <= now
  {
    if calls != [] {
      var n := |calls| - 1;
      ChangeTimes(calls[..n], ctype, calls[n].now);
      History(calls[..n], ctype);
      History(calls, ctype);
    }
  }

  /** With a clock that does not run backwards, a transition is never later than an update. */
  lemma TransitionNotAfterUpdate(calls: seq<Call>, i: nat)
    requires ClockRuns(calls) && i < |Replay(calls)|
    ensures Replay(calls)[i].lastTransition <= Replay(calls)[i].lastUpdate
  {
    var cs := Replay(calls);
    var ctype := cs[i].ctype;
    History(calls, ctype);
    LastOfIs(cs, ctype, i);
    if calls != [] {
      ChangeTimes(calls, ctype, calls[|calls| - 1].now);
    }
  }

  // ----- The code -----

  class ApplicationStatus {
    var conditions: seq<Condition>

    constructor (cs: seq<Condition>)
      ensures conditions == cs
    {
      conditions := cs;
    }

    method Set(ctype: string, status: string, reason: string, message: string, now: int)
      modifies this
      ensures conditions == SetCondition(old(conditions), ctype, status, reason, message, now)
    {
      var found := false;
      var c: nat := |conditions|;
      for i := 0 to |conditions|
        invariant conditions == old(conditions)
        invariant found <==> exists j :: 0 <= j < i && conditions[j].ctype == ctype
        invariant found ==> c < i && conditions[c].ctype == ctype && forall j :: c < j < i ==> conditions[j].ctype != ctype
        invariant !found ==> c == |conditions|
      {
        if conditions[i].ctype == ctype {
          found, c := true, i;
        }
      }
      if !found {
        Add(ctype, status, reason, message, now);
      } else {
        LastOfIs(conditions, ctype, c);
        var cond := conditions[c];
        if cond.status == status && cond.reason == reason && cond.message == message {
          return;
        }
        var transition := if cond.status != status then now else cond.lastTransition;
        conditions := conditions[c := Condition(cond.ctype, now, transition, status, reason, message)];
      }
    }

    method Add(ctype: string, status: string, reason: string, message: string, now: int)
      modifies this
      ensures conditions == old(conditions) + [Condition(ctype, now, now, status, reason, message)]
    {
      conditions := conditions + [Condition(ctype, now, now, status, reason, message)];
    }
  }
}
