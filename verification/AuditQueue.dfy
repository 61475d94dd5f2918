/** The audit event queue and the worker that cuts it into batches. */
module AuditQueue {
  import opened Text

  datatype Event = Event(auditId: string, content: string)

  type Batch = seq<Event>

  function Flatten(bs: seq<Batch>): seq<Event> {
    if bs == [] then [] else bs[0] + Flatten(bs[1..])
  }

  lemma {:induction false} FlattenSnoc(bs: seq<Batch>, b: Batch)
    ensures Flatten(bs + [b]) == Flatten(bs) + b
  {
    if bs == [] {
      assert bs + [b] == [b] && [b][1..] == [];
    } else {
      assert (bs + [b])[1..] == bs[1..] + [b];
      FlattenSnoc(bs[1..], b);
    }
  }

  // ----- The worker -----

  /** What one pass through the select statement picks. */
  datatype Choice = Received(event: Option<Event>) | TimerFired | StopClosed

  /** The batch being built, the batches handed to senders so far, and whether the worker has returned. */
  datatype Worker = Worker(handed: seq<Batch>, batch: Batch, stopped: bool)

  function HandOver(w: Worker, items: Batch): Worker {
    Worker(if items == [] then w.handed else w.handed + [items], [], false)
  }

  /** A nil event is skipped; a full batch and a fired timer hand the batch over; stop drops it. */
  function Choose(size: int, w: Worker, c: Choice): Worker {
    if w.stopped then w
    else match c
      case Received(None) => w
      case Received(Some(e)) =>
        if |w.batch| + 1 >= size then HandOver(w, w.batch + [e]) else w.(batch := w.batch + [e])
      case TimerFired => HandOver(w, w.batch)
      case StopClosed => w.(stopped := true)
  }

  function After(size: int, w: Worker, cs: seq<Choice>): Worker {
    if cs == [] then w else Choose(size, After(size, w, cs[..|cs| - 1]), cs[|cs| - 1])
  }

  const NEW_WORKER := Worker([], [], false)

  /** The largest batch the configured size allows; a size below one still lets one event through. */
  function MaxBatch(size: int): nat {
    if size < 1 then 1 else size
  }

  /** The events among the choices. */
  function Receipts(cs: seq<Choice>): seq<Event> {
    Collect((c: Choice) => if c.Received? then c.event else None, cs)
  }

  lemma ReceiptsNext(cs: seq<Choice>, from: nat, next: nat)
    requires from <= next < |cs|
    ensures Receipts(cs[from..next + 1])
         == Receipts(cs[from..next]) + if cs[next].Received? then Found(cs[next].event) else []
  {
    SliceNext(cs, from, next);
    CollectAppend((c: Choice) => if c.Received? then c.event else None, cs[from..next], [cs[next]]);
    assert [cs[next]][1..] == [];
  }

  lemma AfterStep(size: int, cs: seq<Choice>, n: nat)
    requires n < |cs|
    ensures After(size, NEW_WORKER, cs[..n + 1]) == Choose(size, After(size, NEW_WORKER, cs[..n]), cs[n])
  {
    assert cs[..n + 1][..n] == cs[..n];
  }

  datatype Fetched = Full(items: Batch) | Stopped(dropped: Batch) | Waiting(items: Batch)

  /** getEvents, from the moment its timer is set: `from` is the first choice it makes. */
  method GetEvents(size: int, choices: seq<Choice>, from: nat, ghost w: Worker) returns (r: Fetched, next: nat)
    requires from <= |choices|
    requires w == After(size, NEW_WORKER, choices[..from]) && w.batch == [] && !w.stopped
    ensures from <= next <= |choices| && (r.Full? ==> from < next) && (r.Waiting? ==> next == |choices|)
    ensures After(size, NEW_WORKER, choices[..next]) ==
      match r
      case Full(items) => HandOver(w, items)
      case Stopped(items) => Worker(w.handed, items, true)
      case Waiting(items) => Worker(w.handed, items, false)
    ensures (if r.Stopped? then r.dropped else r.items) == Receipts(choices[from..next])
    ensures forall j :: from <= j < next - 1 ==> choices[j].Received?
    ensures match r
      case Full(items) => if choices[next - 1].TimerFired? then |items| < MaxBatch(size) else choices[next - 1].Received? && |items| == MaxBatch(size)
      case Stopped(items) => from < next && choices[next - 1].StopClosed? && |items| < MaxBatch(size)
      case Waiting(items) => (from < next ==> choices[next - 1].Received?) && |items| < MaxBatch(size)
  {
    var items: Batch := [];
    next := from;
    while next < |choices|
      invariant from <= next <= |choices|
      invariant After(size, NEW_WORKER, choices[..next]) == Worker(w.handed, items, false)
      invariant items == Receipts(choices[from..next]) && |items| < MaxBatch(size)
      invariant forall j :: from <= j < next ==> choices[j].Received?
    {
      var c := choices[next];
      ReceiptsNext(choices, from, next);
      AfterStep(size, choices, next);
      next := next + 1;
      match c {
        case Received(event) =>
          if event.Some? {
            items := items + [event.value];
            if |items| >= size {
              return Full(items), next;
            }
          }
        case TimerFired =>
          return Full(items), next;
        case StopClosed =>
          return Stopped(items), next;
      }
    }
    return Waiting(items), next;
  }

  lemma {:induction false} StoppedForGood(size: int, cs: seq<Choice>, n: nat)
    requires n <= |cs| && After(size, NEW_WORKER, cs[..n]).stopped
    ensures After(size, NEW_WORKER, cs) == After(size, NEW_WORKER, cs[..n])
  {
    if n < |cs| {
      assert cs[..|cs| - 1][..n] == cs[..n];
      StoppedForGood(size, cs[..|cs| - 1], n);
    } else {
      assert cs[..n] == cs;
    }
  }

  /** Until it is stopped the worker loses, doubles and reorders nothing it receives. */
  lemma {:induction false} WorkerKeeps(size: int, cs: seq<Choice>)
    ensures var w := After(size, NEW_WORKER, cs); !w.stopped ==> Flatten(w.handed) + w.batch == Receipts(cs)
  {
    if cs != [] {
      var n := |cs| - 1;
      var w := After(size, NEW_WORKER, cs[..n]);
      WorkerKeeps(size, cs[..n]);
      ReceiptsNext(cs, 0, n);
      assert cs[0..n] == cs[..n] && cs[0..n + 1] == cs;
      ChooseKeeps(size, w, cs[n]);
    }
  }

  lemma ChooseKeeps(size: int, w: Worker, c: Choice)
    ensures var w' := Choose(size, w, c);
      !w'.stopped ==> Flatten(w'.handed) + w'.batch == Flatten(w.handed) + w.batch + if c.Received? then Found(c.event) else []
  {
    var items := w.batch + if c.Received? then Found(c.event) else [];
    FlattenSnoc(w.handed, items);
    assert Flatten(w.handed) + items == Flatten(w.handed) + w.batch + if c.Received? then Found(c.event) else [];
    match c {
      case Received(None) =>
      case Received(Some(e)) =>
        assert items == w.batch + [e];
      case TimerFired =>
        assert items == w.batch;
      case StopClosed =>
    }
  }

  /** The worker loop: batches go to `go sendEvents` in the order of `handed`. */
  method RunWorker(size: int, choices: seq<Choice>) returns (w: Worker)
    ensures w == After(size, NEW_WORKER, choices)
    ensures !w.stopped ==> Flatten(w.handed) + w.batch == Receipts(choices)
  {
    WorkerKeeps(size, choices);
    w := NEW_WORKER;
    var next := 0;
    while true
      invariant 0 <= next <= |choices|
      invariant w == After(size, NEW_WORKER, choices[..next]) && w.batch == [] && !w.stopped
      decreases |choices| - next
    {
      var r;
      r, next := GetEvents(size, choices, next, w);
      match r {
        case Stopped(items) =>
          w := Worker(w.handed, items, true);
          StoppedForGood(size, choices, next);
          return;
        case Waiting(items) =>
          w := Worker(w.handed, items, false);
          assert choices[..next] == choices;
          return;
        case Full(items) =>
          if |items| > 0 {
            w := Worker(w.handed + [items], [], false);
          }
      }
    }
  }

  // ----- Queue and worker together -----

  /** `accepted` is the history of non-nil events the queue has taken in. */
  datatype Pipeline = Pipeline(cache: seq<Option<Event>>, worker: Worker, accepted: seq<Event>)

  datatype Action =
    | Enqueue(event: Option<Event>)  // a producer's send goes through
    | EnqueueTimeout(late: Event)    // a producer gives up after one second
    | Dequeue                        // the worker receives
    | Fire                           // the batch timer fires
    | Close                          // the stop channel is closed

  predicate Enabled(capacity: nat, s: Pipeline, a: Action) {
    match a
    case Enqueue(_) => |s.cache| < capacity
    case EnqueueTimeout(_) => true
    case Dequeue => s.cache != [] && !s.worker.stopped
    case Fire => !s.worker.stopped
    case Close => !s.worker.stopped
  }

  function Next(size: int, s: Pipeline, a: Action): Pipeline {
    match a
    case Enqueue(e) => s.(cache := s.cache + [e], accepted := s.accepted + Present([e]))
    case EnqueueTimeout(_) => s
    case Dequeue =>
      if s.cache == [] then s
      else s.(cache := s.cache[1..], worker := Choose(size, s.worker, Received(s.cache[0])))
    case Fire => s.(worker := Choose(size, s.worker, TimerFired))
    case Close => s.(worker := Choose(size, s.worker, StopClosed))
  }

  function Present(es: seq<Option<Event>>): seq<Event> {
    Collect((e: Option<Event>) => e, es)
  }

  lemma PresentAppend(a: seq<Option<Event>>, b: seq<Option<Event>>)
    ensures Present(a + b) == Present(a) + Present(b)
  {
    CollectAppend((e: Option<Event>) => e, a, b);
  }

  const EMPTY := Pipeline([], NEW_WORKER, [])

  /** A run of the pipeline: consecutive states joined by enabled actions. */
  ghost predicate Run(capacity: nat, size: int, states: seq<Pipeline>, actions: seq<Action>) {
    && |states| == |actions| + 1 && states[0] == EMPTY
    && forall i :: 0 <= i < |actions| ==>
         Enabled(capacity, states[i], actions[i]) && states[i + 1] == Next(size, states[i], actions[i])
  }

  ghost predicate Conserved(capacity: nat, size: int, s: Pipeline) {
    && Flatten(s.worker.handed) + s.worker.batch + Present(s.cache) == s.accepted
    && |s.cache| <= capacity
    && (forall i :: 0 <= i < |s.worker.handed| ==> 0 < |s.worker.handed[i]| <= MaxBatch(size))
    && |s.worker.batch| < MaxBatch(size)
  }

  lemma Reassociate(a: seq<Event>, b: seq<Event>, c: seq<Event>, d: seq<Event>)
    ensures a + (b + c) + d == a + b + (c + d) == (a + b + c) + d
  {}

  lemma DequeueConserves(capacity: nat, size: int, s: Pipeline)
    requires Conserved(capacity, size, s) && s.cache != [] && !s.worker.stopped
    ensures Conserved(capacity, size, Next(size, s, Dequeue))
  {
    var w, e, rest := s.worker, s.cache[0], Present(s.cache[1..]);
    if e.Some? {
      var v := [e.value];
      assert Present(s.cache) == v + rest;
      Reassociate(Flatten(w.handed), w.batch, v, rest);
      FlattenSnoc(w.handed, w.batch + v);
      if |w.batch| + 1 >= size {
        assert Choose(size, w, Received(e)) == Worker(w.handed + [w.batch + v], [], false);
      }
    } else {
      assert Present(s.cache) == [] + rest == rest;
    }
  }

  lemma StepConserves(capacity: nat, size: int, s: Pipeline, a: Action)
    requires Conserved(capacity, size, s) && Enabled(capacity, s, a)
    ensures Conserved(capacity, size, Next(size, s, a))
  {
    var w := s.worker;
    match a {
      case Enqueue(e) =>
        PresentAppend(s.cache, [e]);
        Reassociate(Flatten(w.handed), w.batch, Present(s.cache), Present([e]));
      case EnqueueTimeout(_) =>
      case Dequeue =>
        DequeueConserves(capacity, size, s);
      case Fire =>
        FlattenSnoc(w.handed, w.batch);
      case Close =>
    }
  }

  /** No event is lost, duplicated or reordered: in every state of every run, what was handed over, then the
      batch being built, then the queue is exactly what was accepted, and no handed batch is empty or too large. */
  lemma {:induction false} AuditConservation(capacity: nat, size: int, states: seq<Pipeline>, actions: seq<Action>, i: nat)
    requires Run(capacity, size, states, actions) && i < |states|
    ensures Conserved(capacity, size, states[i])
  {
    if i > 0 {
      AuditConservation(capacity, size, states, actions, i - 1);
      StepConserves(capacity, size, states[i - 1], actions[i - 1]);
      assert states[i - 1 + 1] == Next(size, states[i - 1], actions[i - 1]);
    }
  }

  /** How batches come about in one step: a batch is handed over when the timer fires on a batch that is not empty,
      or when an event makes it as large as it may be; any other event makes the open batch one longer. */
  ghost predicate BatchStep(size: int, s: Pipeline, a: Action, s': Pipeline) {
    var w, w' := s.worker, s'.worker;
    if |w'.handed| == |w.handed| then
      && w'.handed == w.handed && (a.Fire? ==> w.batch == [])
      && w'.batch == if a.Dequeue? && s.cache != [] then w.batch + Found(s.cache[0]) else w.batch
    else
      && |w'.handed| == |w.handed| + 1 && w'.handed[..|w.handed|] == w.handed && w'.batch == []
      && var b := w'.handed[|w.handed|];
         || (a.Fire? && b == w.batch && b != [])
         || (a.Dequeue? && s.cache != [] && s.cache[0].Some? && b == w.batch + [s.cache[0].value] && |b| == MaxBatch(size))
  }

  lemma StepCutsBatches(capacity: nat, size: int, s: Pipeline, a: Action)
    requires Conserved(capacity, size, s) && Enabled(capacity, s, a)
    ensures BatchStep(size, s, a, Next(size, s, a))
    ensures Next(size, s, a).worker.stopped <==> s.worker.stopped || a.Close?
    ensures Next(size, s, a).cache == (if a.Enqueue? then s.cache + [a.event] else if a.Dequeue? then s.cache[1..] else s.cache)
  {
    StepConserves(capacity, size, s, a);
  }

  /** The step that cut a batch: the one that filled it, or the timer firing on it. */
  predicate CutBy(size: int, s: Pipeline, a: Action, b: Batch) {
    (a.Dequeue? && |b| == MaxBatch(size)) || (a.Fire? && b == s.worker.batch)
  }

  lemma RunHandsOver(capacity: nat, size: int, states: seq<Pipeline>, actions: seq<Action>, n: nat)
    requires Run(capacity, size, states, actions) && n < |actions|
    ensures var h, h' := states[n].worker.handed, states[n + 1].worker.handed;
      h <= h' && |h'| <= |h| + 1 && (|h| < |h'| ==> CutBy(size, states[n], actions[n], h'[|h|]))
  {
    AuditConservation(capacity, size, states, actions, n);
    StepCutsBatches(capacity, size, states[n], actions[n]);
  }

  /** Where a handed batch was cut: it was full, or the timer fired on it. */
  lemma {:induction false} EveryBatchCut(capacity: nat, size: int, states: seq<Pipeline>, actions: seq<Action>, n: nat, k: nat)
    returns (i: nat)
    requires Run(capacity, size, states, actions) && n < |states| && k < |states[n].worker.handed|
    ensures i < n && |states[i].worker.handed| == k && states[i + 1].worker.handed == states[n].worker.handed[..k + 1]
    ensures CutBy(size, states[i], actions[i], states[n].worker.handed[k])
  {
    assert n > 0;
    RunHandsOver(capacity, size, states, actions, n - 1);
    var before, after := states[n - 1].worker.handed, states[n].worker.handed;
    if k < |before| {
      i := EveryBatchCut(capacity, size, states, actions, n - 1, k);
      assert before[..k + 1] == after[..k + 1];
    } else {
      i := n - 1;
      assert after[..k + 1] == after;
    }
  }

  /** Stop discards the batch being built and what is queued, and nothing else: no batch is taken back or added. */
  lemma {:induction false} NothingAfterStop(capacity: nat, size: int, states: seq<Pipeline>, actions: seq<Action>, i: nat, j: nat)
    requires Run(capacity, size, states, actions) && i <= j < |states| && states[i].worker.stopped
    ensures states[j].worker == states[i].worker
    ensures Flatten(states[j].worker.handed) <= states[j].accepted
    ensures states[j].accepted[|Flatten(states[j].worker.handed)|..] == states[j].worker.batch + Present(states[j].cache)
  {
    AuditConservation(capacity, size, states, actions, j);
    var s := states[j];
    assert s.accepted == Flatten(s.worker.handed) + (s.worker.batch + Present(s.cache));
    if i < j {
      NothingAfterStop(capacity, size, states, actions, i, j - 1);
      assert states[j - 1 + 1] == Next(size, states[j - 1], actions[j - 1]);
    }
  }

  function Drain(size: int, s: Pipeline): Pipeline
    decreases |s.cache|
  {
    if s.cache == [] then Next(size, s, Fire) else Drain(size, Next(size, s, Dequeue))
  }

  /** Nothing gets stuck: as long as the worker runs, receiving what is queued and letting the timer fire
      hands over everything accepted. */
  lemma {:induction false} EverythingIsHandedOver(capacity: nat, size: int, s: Pipeline)
    requires Conserved(capacity, size, s) && !s.worker.stopped
    ensures Flatten(Drain(size, s).worker.handed) == s.accepted
    decreases |s.cache|
  {
    if s.cache == [] {
      FlattenSnoc(s.worker.handed, s.worker.batch);
    } else {
      StepConserves(capacity, size, s, Dequeue);
      EverythingIsHandedOver(capacity, size, Next(size, s, Dequeue));
    }
  }

  /** What the worker's select statement picks in one step, if it picks anything. */
  function Pick(s: Pipeline, a: Action): Option<Choice> {
    match a
    case Dequeue => if s.cache != [] then Some(Received(s.cache[0])) else None
    case Fire => Some(TimerFired)
    case Close => Some(StopClosed)
    case _ => None
  }

  /** And in the first `n` steps of a run. */
  ghost function Picked(states: seq<Pipeline>, actions: seq<Action>, n: nat): seq<Choice>
    requires n <= |actions| <= |states|
  {
    if n == 0 then [] else Picked(states, actions, n - 1) + Found(Pick(states[n - 1], actions[n - 1]))
  }

  lemma StepIsChoice(size: int, s: Pipeline, a: Action)
    ensures var c := Pick(s, a); Next(size, s, a).worker == if c.Some? then Choose(size, s.worker, c.value) else s.worker
  {}

  lemma AfterNext(size: int, w: Worker, cs: seq<Choice>, c: Option<Choice>)
    ensures After(size, w, cs + Found(c)) == if c.Some? then Choose(size, After(size, w, cs), c.value) else After(size, w, cs)
  {
    var all := cs + Found(c);
    if c.Some? {
      assert all[..|all| - 1] == cs;
    } else {
      assert all == cs;
    }
  }

  /** The worker of the pipeline is the worker loop, run on what its select statement picks. */
  lemma {:induction false} PipelineRunsWorker(capacity: nat, size: int, states: seq<Pipeline>, actions: seq<Action>, n: nat)
    requires Run(capacity, size, states, actions) && n <= |actions|
    ensures states[n].worker == After(size, NEW_WORKER, Picked(states, actions, n))
  {
    if n > 0 {
      var s, a := states[n - 1], actions[n - 1];
      PipelineRunsWorker(capacity, size, states, actions, n - 1);
      assert states[n - 1 + 1] == Next(size, s, a);
      StepIsChoice(size, s, a);
      AfterNext(size, NEW_WORKER, Picked(states, actions, n - 1), Pick(s, a));
    }
  }
}
