/** The counting semaphore that bounds concurrent audit senders, with its two nested timeouts. */
module AuditSenders {

  /** The goroutine started by sendEvents: deciding between a token and giving up, holding a token
      and posting, blocked on signalling its parent, or gone. */
  datatype Inner = Deciding | Posting | Signalling | Exited

  /** sendEvents itself: in its select, on its way out through the deferred release, or returned. */
  datatype Outer = Selecting | Releasing | Returned

  /** `acquired` and `took` record whether this call ever put a token into the channel, and took one out on its return. */
  datatype Send = Send(inner: Inner, outer: Outer, skipReturnSender: bool, acquired: bool, took: bool)

  /** All sendEvents calls so far, and the tokens in the sender channel. */
  datatype State = State(sends: map<nat, Send>, tokens: nat)

  datatype Action =
    | Spawn(id: nat)         // the worker starts a call
    | Acquire(id: nat)       // the inner goroutine puts its token into the channel
    | GiveUp(id: nat)        // its one-second timeout fires first
    | Finish(id: nat)        // the post is over, one way or another
    | Signal(id: nat)        // the rendezvous on stopCh
    | Timeout(id: nat)       // the three-second timeout of the call fires
    | Release(id: nat)       // the deferred function runs and the call returns

  predicate Enabled(capacity: nat, s: State, a: Action) {
    match a
    case Spawn(id) => id !in s.sends
    case Acquire(id) => id in s.sends && s.sends[id].inner == Deciding && s.tokens < capacity
    case GiveUp(id) => id in s.sends && s.sends[id].inner == Deciding
    case Finish(id) => id in s.sends && s.sends[id].inner == Posting
    case Signal(id) => id in s.sends && s.sends[id].inner == Signalling && s.sends[id].outer == Selecting
    case Timeout(id) => id in s.sends && s.sends[id].outer == Selecting
    case Release(id) => id in s.sends && s.sends[id].outer == Releasing && (s.sends[id].skipReturnSender || s.tokens > 0)
  }

  function Set(s: State, id: nat, x: Send, tokens: nat): State {
    State(s.sends[id := x], tokens)
  }

  function Next(s: State, a: Action): State
    requires a.Spawn? || a.id in s.sends
    requires a.Release? && !s.sends[a.id].skipReturnSender ==> s.tokens > 0
  {
    if a.Spawn? then Set(s, a.id, Send(Deciding, Selecting, false, false, false), s.tokens)
    else
      var x := s.sends[a.id];
      match a
      case Spawn(_) => s
      case Acquire(id) => Set(s, id, x.(inner := Posting, acquired := true), s.tokens + 1)
      case GiveUp(id) => Set(s, id, x.(inner := Exited, skipReturnSender := true), s.tokens)
      case Finish(id) => Set(s, id, x.(inner := Signalling), s.tokens)
      case Signal(id) => Set(s, id, x.(inner := Exited, outer := Releasing), s.tokens)
      case Timeout(id) => Set(s, id, x.(outer := Releasing), s.tokens)
      case Release(id) =>
        Set(s, id, x.(outer := Returned, took := !x.skipReturnSender), if x.skipReturnSender then s.tokens else s.tokens - 1)
  }

  /** The call's own decision came before its outer timeout: one second against three. */
  predicate Timely(s: State, a: Action) {
    a.Timeout? && a.id in s.sends ==> s.sends[a.id].inner != Deciding
  }

  const NONE := State(map[], 0)

  ghost predicate Run(capacity: nat, states: seq<State>, actions: seq<Action>) {
    && |states| == |actions| + 1 && states[0] == NONE
    && forall i :: 0 <= i < |actions| ==>
         Enabled(capacity, states[i], actions[i]) && states[i + 1] == Next(states[i], actions[i])
  }

  ghost predicate TimelyRun(capacity: nat, states: seq<State>, actions: seq<Action>) {
    Run(capacity, states, actions) && forall i :: 0 <= i < |actions| ==> Timely(states[i], actions[i])
  }

  // ----- The ledger of every run, timely or not -----

  predicate Holds(x: Send) {
    x.acquired && x.outer != Returned
  }

  /** The call returned with a token that it had not put in. */
  predicate Owes(x: Send) {
    x.took && !x.acquired
  }

  /** The calls that acquired a token and have not returned. */
  function Holders(s: State): set<nat> {
    set id | id in s.sends && Holds(s.sends[id])
  }

  function Debtors(s: State): set<nat> {
    set id | id in s.sends && Owes(s.sends[id])
  }

  /** How far a call has come, as its records show it. */
  predicate Consistent(x: Send) {
    && (x.inner == Deciding ==> !x.acquired && !x.skipReturnSender)
    && (x.inner != Deciding ==> (x.acquired <==> !x.skipReturnSender))
    && (x.inner in {Posting, Signalling} ==> x.acquired)
    && (x.took ==> x.outer == Returned)
    && (x.outer == Returned && x.inner == Deciding ==> x.took)
    && (x.outer == Returned && x.acquired ==> x.took)
  }

  ghost predicate Ledger(capacity: nat, s: State) {
    && s.tokens + |Debtors(s)| == |Holders(s)| && s.tokens <= capacity
    && forall id :: id in s.sends ==> Consistent(s.sends[id])
  }

  function One(b: bool): nat {
    if b then 1 else 0
  }

  lemma SizeChange(before: set<nat>, after: set<nat>, id: nat)
    requires before - {id} == after - {id}
    ensures |after| == |before| + One(id in after) - One(id in before)
  {
    assert before == if id in before then before - {id} + {id} else before - {id};
    assert after == if id in after then after - {id} + {id} else after - {id};
  }

  lemma SetChange(s: State, id: nat, x: Send, tokens: nat)
    requires id in s.sends
    ensures |Holders(Set(s, id, x, tokens))| == |Holders(s)| + One(Holds(x)) - One(Holds(s.sends[id]))
    ensures |Debtors(Set(s, id, x, tokens))| == |Debtors(s)| + One(Owes(x)) - One(Owes(s.sends[id]))
  {
    var s' := Set(s, id, x, tokens);
    SizeChange(Holders(s), Holders(s'), id);
    SizeChange(Debtors(s), Debtors(s'), id);
  }

  lemma StepLedger(capacity: nat, s: State, a: Action)
    requires Ledger(capacity, s) && Enabled(capacity, s, a)
    ensures Ledger(capacity, Next(s, a))
  {
    var s' := Next(s, a);
    if a.Spawn? {
      assert Holders(s') == Holders(s) && Debtors(s') == Debtors(s);
    } else {
      assert Consistent(s.sends[a.id]);
      SetChange(s, a.id, s'.sends[a.id], s'.tokens);
    }
  }

  /** In every interleaving whatever, tokens and debts together are the calls that acquired and have not returned,
      and the tokens are within capacity. */
  lemma {:induction false} RunLedger(capacity: nat, states: seq<State>, actions: seq<Action>, i: nat)
    requires Run(capacity, states, actions) && i < |states|
    ensures Ledger(capacity, states[i])
  {
    if i > 0 {
      RunLedger(capacity, states, actions, i - 1);
      StepLedger(capacity, states[i - 1], actions[i - 1]);
      assert states[i - 1 + 1] == Next(states[i - 1], actions[i - 1]);
    } else {
      assert Holders(NONE) == {} && Debtors(NONE) == {};
    }
  }

  /** Once all calls have returned no token is left and none is owed, timely or not. */
  lemma NothingLeft(capacity: nat, s: State)
    requires Ledger(capacity, s) && forall id :: id in s.sends ==> s.sends[id].outer == Returned
    ensures s.tokens == 0 && Debtors(s) == {}
  {
    assert Holders(s) == {};
  }

  // ----- What the channel is for -----

  /** The tokens are the calls that acquired and have not returned. */
  predicate Balanced(s: State) {
    s.tokens == |Holders(s)|
  }

  /** The accounts are right, within capacity; and every call on its way out finds what it needs to return
      at once and leaves the accounts right. */
  ghost predicate Sound(capacity: nat, s: State) {
    && Balanced(s) && s.tokens <= capacity
    && forall id :: id in s.sends && s.sends[id].outer == Releasing ==>
         Enabled(capacity, s, Release(id)) && Balanced(Next(s, Release(id)))
  }

  lemma BalancedMeansNoDebt(capacity: nat, s: State)
    requires Ledger(capacity, s)
    ensures Balanced(s) <==> Debtors(s) == {}
  {}

  /** What becomes of a call on its way out, where nothing is owed yet. */
  lemma ReleaseExactly(capacity: nat, s: State, id: nat)
    requires Ledger(capacity, s) && Balanced(s) && id in s.sends && s.sends[id].outer == Releasing
    ensures Enabled(capacity, s, Release(id)) && Balanced(Next(s, Release(id))) <==> s.sends[id].inner != Deciding
  {
    var x := s.sends[id];
    assert Consistent(x);
    if Holds(x) {
      assert id in Holders(s);
    }
    if Enabled(capacity, s, Release(id)) {
      var s' := Next(s, Release(id));
      SetChange(s, id, s'.sends[id], s'.tokens);
    }
  }

  /** No call leaves before it has decided. */
  ghost predicate Punctual(s: State) {
    forall id :: id in s.sends && s.sends[id].inner == Deciding ==> s.sends[id].outer == Selecting
  }

  lemma SoundExactly(capacity: nat, s: State)
    requires Ledger(capacity, s)
    ensures Sound(capacity, s) <==> Balanced(s) && forall id :: id in s.sends && s.sends[id].inner == Deciding ==> s.sends[id].outer != Releasing
  {
    if Balanced(s) {
      forall id | id in s.sends && s.sends[id].outer == Releasing
        ensures Enabled(capacity, s, Release(id)) && Balanced(Next(s, Release(id))) <==> s.sends[id].inner != Deciding
      {
        ReleaseExactly(capacity, s, id);
      }
    }
  }

  /** A returned call without debt has decided, so soundness is punctuality where nothing is owed. */
  lemma SoundMeansPunctual(capacity: nat, s: State)
    requires Ledger(capacity, s)
    ensures Sound(capacity, s) <==> Balanced(s) && Punctual(s)
  {
    SoundExactly(capacity, s);
    BalancedMeansNoDebt(capacity, s);
    if Balanced(s) {
      forall id | id in s.sends && s.sends[id].inner == Deciding ensures s.sends[id].outer != Returned {
        assert Consistent(s.sends[id]) && id !in Debtors(s);
      }
    }
  }

  lemma StepAccounts(capacity: nat, s: State, a: Action)
    requires Ledger(capacity, s) && Sound(capacity, s) && Enabled(capacity, s, a)
    ensures Sound(capacity, Next(s, a)) <==> Timely(s, a)
  {
    var s' := Next(s, a);
    StepLedger(capacity, s, a);
    SoundMeansPunctual(capacity, s);
    SoundMeansPunctual(capacity, s');
    if a.Spawn? {
      assert Holders(s') == Holders(s);
    } else {
      assert Consistent(s.sends[a.id]);
      SetChange(s, a.id, s'.sends[a.id], s'.tokens);
      if !Timely(s, a) {
        assert s'.sends[a.id].inner == Deciding && s'.sends[a.id].outer == Releasing;
      }
    }
  }

  /** Sender tokens, over all runs of any number of calls: at every moment the tokens are the calls that acquired
      and have not returned, within capacity, and every releasing receive finds its own token, if and only if
      every call decides before its own outer timeout. */
  lemma {:induction false} TokenAccounting(capacity: nat, states: seq<State>, actions: seq<Action>)
    requires Run(capacity, states, actions)
    ensures (forall i :: 0 <= i < |states| ==> Sound(capacity, states[i])) <==> TimelyRun(capacity, states, actions)
  {
    if TimelyRun(capacity, states, actions) {
      forall i | 0 <= i < |states| ensures Sound(capacity, states[i]) {
        TimelyIsSound(capacity, states, actions, i);
      }
    }
    if forall i :: 0 <= i < |states| ==> Sound(capacity, states[i]) {
      forall i | 0 <= i < |actions| ensures Timely(states[i], actions[i]) {
        RunLedger(capacity, states, actions, i);
        StepAccounts(capacity, states[i], actions[i]);
        assert Sound(capacity, states[i + 1]);
      }
    }
  }

  lemma {:induction false} TimelyIsSound(capacity: nat, states: seq<State>, actions: seq<Action>, i: nat)
    requires TimelyRun(capacity, states, actions) && i < |states|
    ensures Sound(capacity, states[i])
  {
    if i > 0 {
      TimelyIsSound(capacity, states, actions, i - 1);
      RunLedger(capacity, states, actions, i - 1);
      StepAccounts(capacity, states[i - 1], actions[i - 1]);
      assert states[i - 1 + 1] == Next(states[i - 1], actions[i - 1]);
    } else {
      assert Holders(NONE) == {};
    }
  }

  // ----- What an untimely call costs -----

  /** The call took a token that it had not put in, and has given up putting one in. */
  predicate Lost(x: Send) {
    Owes(x) && x.inner == Exited
  }

  lemma {:induction false} LostStays(capacity: nat, states: seq<State>, actions: seq<Action>, id: nat, i: nat, j: nat)
    requires Run(capacity, states, actions) && i <= j < |states|
    requires id in states[i].sends && Lost(states[i].sends[id])
    ensures id in states[j].sends && Lost(states[j].sends[id])
  {
    if i < j {
      LostStays(capacity, states, actions, id, i, j - 1);
      RunLedger(capacity, states, actions, j - 1);
      assert Consistent(states[j - 1].sends[id]);
      assert states[j - 1 + 1] == Next(states[j - 1], actions[j - 1]);
    }
  }

  /** A lost token is never made good: at every later moment, whatever calls are started, some call that
      acquired has not returned, and there are fewer tokens than such calls. */
  lemma LostForGood(capacity: nat, states: seq<State>, actions: seq<Action>, id: nat, i: nat, j: nat)
    requires Run(capacity, states, actions) && i <= j < |states|
    requires id in states[i].sends && Lost(states[i].sends[id])
    ensures states[j].tokens < |Holders(states[j])|
    ensures exists h :: h in states[j].sends && states[j].sends[h].acquired && states[j].sends[h].outer != Returned
  {
    LostStays(capacity, states, actions, id, i, j);
    RunLedger(capacity, states, actions, j);
    assert id in Debtors(states[j]);
    assert Holders(states[j]) != {};
    var h :| h in Holders(states[j]);
  }

  lemma Extend(capacity: nat, states: seq<State>, actions: seq<Action>, a: Action)
    returns (states': seq<State>, actions': seq<Action>, last: State)
    requires Run(capacity, states, actions) && Enabled(capacity, states[|actions|], a)
    ensures Run(capacity, states', actions') && last == states'[|actions'|] == Next(states[|actions|], a)
  {
    last := Next(states[|actions|], a);
    states', actions' := states + [last], actions + [a];
  }

  /** It does happen: a call whose timeout beats its own decision takes the token of another and then gives up.
      The other is done and blocked on its release, and LostForGood applies from here on. */
  lemma UntimelyRunLoses() returns (states: seq<State>, actions: seq<Action>)
    ensures Run(2, states, actions)
    ensures var s := states[|actions|];
      && s.sends.Keys == {0, 1} && Lost(s.sends[0])
      && s.sends[1].outer == Releasing && !Enabled(2, s, Release(1))
      && forall id :: id in s.sends ==> s.sends[id].inner == Exited
  {
    var s := NONE;
    states, actions := [NONE], [];
    states, actions, s := Extend(2, states, actions, Spawn(0));
    states, actions, s := Extend(2, states, actions, Timeout(0));
    states, actions, s := Extend(2, states, actions, Spawn(1));
    states, actions, s := Extend(2, states, actions, Acquire(1));
    states, actions, s := Extend(2, states, actions, Release(0));
    states, actions, s := Extend(2, states, actions, GiveUp(0));
    states, actions, s := Extend(2, states, actions, Finish(1));
    states, actions, s := Extend(2, states, actions, Signal(1));
  }

  // ----- Why the configured timeouts are timely -----

  const GET_SENDER_TIMEOUT := 1000
  const SEND_TIMEOUT := 3000

  predicate Decides(a: Action, id: nat) {
    a == Acquire(id) || a == GiveUp(id)
  }

  /** Some step by `deadline` decides the call. */
  ghost predicate DecidedBy(actions: seq<Action>, times: seq<int>, id: nat, deadline: int)
    requires |times| == |actions|
  {
    exists d :: 0 <= d < |actions| && Decides(actions[d], id) && times[d] <= deadline
  }

  /** The steps happen at `times`, in milliseconds. A call is decided by one second and `slack` after it was started,
      if the run goes on that long, and its outer timeout fires no sooner than three seconds after that start. */
  ghost predicate Clocked(actions: seq<Action>, times: seq<int>, slack: nat) {
    && |times| == |actions|
    && (forall i, j :: 0 <= i < j < |times| ==> times[i] <= times[j])
    && (forall i, j :: 0 <= i < j < |times| && actions[i].Spawn? && times[j] > times[i] + GET_SENDER_TIMEOUT + slack ==>
          DecidedBy(actions, times, actions[i].id, times[i] + GET_SENDER_TIMEOUT + slack))
    && (forall i, j :: 0 <= i < j < |times| && actions[i].Spawn? && actions[j] == Timeout(actions[i].id) ==>
          times[j] >= times[i] + SEND_TIMEOUT)
  }

  lemma {:induction false} SpawnedBefore(capacity: nat, states: seq<State>, actions: seq<Action>, id: nat, j: nat)
    returns (i: nat)
    requires Run(capacity, states, actions) && j < |states| && id in states[j].sends
    ensures i < j && actions[i] == Spawn(id)
  {
    assert j > 0;
    assert states[j - 1 + 1] == Next(states[j - 1], actions[j - 1]);
    if id in states[j - 1].sends {
      i := SpawnedBefore(capacity, states, actions, id, j - 1);
    } else {
      i := j - 1;
    }
  }

  lemma {:induction false} StaysDecided(capacity: nat, states: seq<State>, actions: seq<Action>, id: nat, d: nat, j: nat)
    requires Run(capacity, states, actions) && d < j < |states| && Decides(actions[d], id)
    ensures id in states[j].sends && states[j].sends[id].inner != Deciding
  {
    assert states[j - 1 + 1] == Next(states[j - 1], actions[j - 1]);
    if d < j - 1 {
      StaysDecided(capacity, states, actions, id, d, j - 1);
    }
  }

  /** The configured timeouts leave two seconds for a decision to come late. */
  lemma ConfiguredTimeoutsAreTimely(capacity: nat, states: seq<State>, actions: seq<Action>, times: seq<int>, slack: nat)
    requires Run(capacity, states, actions) && Clocked(actions, times, slack)
    requires slack < SEND_TIMEOUT - GET_SENDER_TIMEOUT
    ensures TimelyRun(capacity, states, actions)
  {
    forall j | 0 <= j < |actions| ensures Timely(states[j], actions[j]) {
      var a := actions[j];
      if a.Timeout? && a.id in states[j].sends {
        var i := SpawnedBefore(capacity, states, actions, a.id, j);
        assert DecidedBy(actions, times, actions[i].id, times[i] + GET_SENDER_TIMEOUT + slack);
        var d :| 0 <= d < |actions| && Decides(actions[d], a.id) && times[d] <= times[i] + GET_SENDER_TIMEOUT + slack;
        assert d < j;
        StaysDecided(capacity, states, actions, a.id, d, j);
      }
    }
  }

  /** No more than that: with two seconds of slack an untimely run keeps to the clock. */
  lemma TwoSecondsAreTooMuch(capacity: nat, slack: nat) returns (states: seq<State>, actions: seq<Action>, times: seq<int>)
    requires slack >= SEND_TIMEOUT - GET_SENDER_TIMEOUT
    ensures Run(capacity, states, actions) && Clocked(actions, times, slack) && !TimelyRun(capacity, states, actions)
  {
    var spawned := Next(NONE, Spawn(0));
    states, actions := [NONE, spawned, Next(spawned, Timeout(0))], [Spawn(0), Timeout(0)];
    times := [0, SEND_TIMEOUT];
    assert !Timely(states[1], actions[1]);
  }
}
