/** The rate-limiting work queue both controllers drain, without its delays, and the retry policy of their error
    handlers. An item waits out its delay, becomes ready, is processed by one worker at a time, and carries a count of
    its rate-limited additions until it is forgotten. */
module WorkQueues {
  import opened Options

  const REQUEUE_LIMIT := 50

  datatype State<T(==)> = State(waiting: set<T>, ready: set<T>, processing: set<T>, requeues: map<T, nat>) {
    function NumRequeues(item: T): nat {
      if item in requeues then requeues[item] else 0
    }

    function AddRateLimited(item: T): State<T> {
      this.(waiting := waiting + {item}, requeues := requeues[item := NumRequeues(item) + 1])
    }

    /** The delay of a waiting item has passed. */
    function Release(item: T): State<T> {
      this.(waiting := waiting - {item}, ready := ready + {item})
    }

    function Get(item: T): State<T> {
      this.(ready := ready - {item}, processing := processing + {item})
    }

    function Forget(item: T): State<T> {
      this.(requeues := requeues - {item})
    }

    function Done(item: T): State<T> {
      this.(processing := processing - {item})
    }

    /** The error handler: forget a success, retry a failure until its count reaches the limit. */
    function Settle(item: T, ok: bool): State<T> {
      if !ok && NumRequeues(item) < REQUEUE_LIMIT then AddRateLimited(item) else Forget(item)
    }

    predicate Absent(item: T) {
      item !in waiting && item !in ready && item !in processing && item !in requeues
    }

    /** The item is in exactly one of the three places. */
    predicate Once(item: T) {
      || (item in waiting && item !in ready && item !in processing)
      || (item !in waiting && item in ready && item !in processing)
      || (item !in waiting && item !in ready && item in processing)
    }
  }

  datatype QueueCall<T> = Got(item: T) | Forgot(item: T) | Requeued(item: T) | Finished(item: T)

  class WorkQueue<T(==)> {
    var state: State<T>
    var shuttingDown: bool
    var calls: seq<QueueCall<T>>

    constructor ()
      ensures state == State({}, {}, {}, map[]) && !shuttingDown && calls == []
    {
      state := State({}, {}, {}, map[]);
      shuttingDown := false;
      calls := [];
    }

    method AddRateLimited(item: T)
      modifies this`state, this`calls
      ensures state == old(state).AddRateLimited(item) && calls == old(calls) + [Requeued(item)]
    {
      state := state.AddRateLimited(item);
      calls := calls + [Requeued(item)];
    }

    /** Blocks until an item is ready or the queue shuts down empty; None is the request to quit. */
    method Get() returns (item: Option<T>)
      requires state.ready - state.processing != {} || shuttingDown
      modifies this`state, this`calls
      ensures item.None? ==> old(shuttingDown) && state == old(state) && calls == old(calls)
      ensures item.Some? ==> item.value in old(state.ready - state.processing)
                             && state == old(state).Get(item.value) && calls == old(calls) + [Got(item.value)]
    {
      var available := state.ready - state.processing;
      if available == {} {
        return None;
      }
      var next :| next in available;
      state := state.Get(next);
      calls := calls + [Got(next)];
      return Some(next);
    }

    method Forget(item: T)
      modifies this`state, this`calls
      ensures state == old(state).Forget(item) && calls == old(calls) + [Forgot(item)]
    {
      state := state.Forget(item);
      calls := calls + [Forgot(item)];
    }

    method Done(item: T)
      modifies this`state, this`calls
      ensures state == old(state).Done(item) && calls == old(calls) + [Finished(item)]
    {
      state := state.Done(item);
      calls := calls + [Finished(item)];
    }

    /** The error handler of both controllers. */
    method HandleError(item: T, ok: bool)
      modifies this`state, this`calls
      ensures state == old(state).Settle(item, ok)
      ensures calls == old(calls) +
                [if !ok && old(state).NumRequeues(item) < REQUEUE_LIMIT then Requeued(item) else Forgot(item)]
    {
      if ok {
        Forget(item);
      } else if state.NumRequeues(item) < REQUEUE_LIMIT {
        AddRateLimited(item);
      } else {
        Forget(item);
      }
    }
  }

  /** What can happen to a queue: events and workers in any interleaving. */
  datatype Step<T> = Enqueue(item: T) | Elapse(item: T) | Start(item: T) | Finish(item: T, ok: bool)

  predicate Enabled<T>(q: State<T>, s: Step<T>) {
    match s
    case Enqueue(_) => true
    case Elapse(item) => item in q.waiting
    case Start(item) => item in q.ready - q.processing
    case Finish(item, _) => item in q.processing
  }

  function Next<T>(q: State<T>, s: Step<T>): State<T> {
    match s
    case Enqueue(item) => q.AddRateLimited(item)
    case Elapse(item) => q.Release(item)
    case Start(item) => q.Get(item)
    case Finish(item, ok) => q.Settle(item, ok).Done(item)
  }

  function After<T>(q: State<T>, run: seq<Step<T>>): State<T> {
    if run == [] then q else Next(After(q, run[..|run| - 1]), run[|run| - 1])
  }

  predicate IsRun<T>(q: State<T>, run: seq<Step<T>>) {
    run == [] || (IsRun(q, run[..|run| - 1]) && Enabled(After(q, run[..|run| - 1]), run[|run| - 1]))
  }

  /** How often an item was processed to the end. */
  function Attempts<T(==)>(run: seq<Step<T>>, item: T): nat {
    if run == [] then 0
    else
      var last := run[|run| - 1];
      Attempts(run[..|run| - 1], item) + if last.Finish? && last.item == item then 1 else 0
  }

  predicate Succeeded<T(==)>(run: seq<Step<T>>, item: T) {
    Finish(item, true) in run
  }

  /** How many steps of a run concern an item. */
  function StepsOn<T(==)>(run: seq<Step<T>>, item: T): nat {
    if run == [] then 0
    else StepsOn(run[..|run| - 1], item) + if run[|run| - 1].item == item then 1 else 0
  }

  /** How far an item is through its current round: waiting, ready, being processed. */
  function Stage<T>(q: State<T>, item: T): nat {
    if item in q.ready then 1 else if item in q.processing then 2 else 0
  }

  /** What an event does for an item that is nowhere: it is pending, and counted once; all other items stand as they
      were. */
  lemma EnqueuedIsPending<T>(q: State<T>, item: T, other: T)
    ensures var after := Next(q, Enqueue(item));
      && item in after.waiting && after.NumRequeues(item) == q.NumRequeues(item) + 1
      && (q.Absent(item) ==> after.Once(item))
      && (other != item ==>
            && (other in after.waiting <==> other in q.waiting) && (other in after.ready <==> other in q.ready)
            && (other in after.processing <==> other in q.processing)
            && after.NumRequeues(other) == q.NumRequeues(other))
  {
  }

  /** Where an item enqueued once stands after so many attempts and steps of its own. */
  predicate OnTrack<T>(q: State<T>, item: T, attempts: nat, steps: nat, succeeded: bool) {
    && attempts <= REQUEUE_LIMIT
    && steps == 3 * attempts + Stage(q, item) <= 3 * REQUEUE_LIMIT
    && if succeeded || attempts == REQUEUE_LIMIT then q.Absent(item)
       else q.Once(item) && q.NumRequeues(item) == attempts + 1
  }

  lemma StaysOnTrack<T>(q: State<T>, s: Step<T>, item: T, attempts: nat, steps: nat, succeeded: bool)
    requires OnTrack(q, item, attempts, steps, succeeded) && Enabled(q, s) && s != Enqueue(item)
    ensures OnTrack(Next(q, s), item, attempts + (if s.Finish? && s.item == item then 1 else 0),
                    steps + (if s.item == item then 1 else 0), succeeded || s == Finish(item, true))
  {
  }

  /** Retrying ends and loses nothing. An item enqueued once, from fresh, is processed at most fifty times; until it
      succeeds or has failed fifty times it is pending in exactly one place, its count one more than its failures; after
      that it is gone. Each round takes three steps, so no run has more than 150 steps of the item. */
  lemma {:induction false} FiftyAttempts<T>(q0: State<T>, run: seq<Step<T>>, item: T)
    requires q0.Absent(item) && Enqueue(item) !in run
    requires IsRun(Next(q0, Enqueue(item)), run)
    ensures var q := After(Next(q0, Enqueue(item)), run);
      && Attempts(run, item) <= 50
      && StepsOn(run, item) == 3 * Attempts(run, item) + Stage(q, item) <= 150
      && if Succeeded(run, item) || Attempts(run, item) == 50 then q.Absent(item)
         else q.Once(item) && q.NumRequeues(item) == Attempts(run, item) + 1
  {
    if run != [] {
      var init, last := run[..|run| - 1], run[|run| - 1];
      assert forall s :: s in init ==> s in run;
      FiftyAttempts(q0, init, item);
      assert run == init + [last];
      assert Succeeded(run, item) <==> Succeeded(init, item) || last == Finish(item, true);
      assert last in run;
      var q := After(Next(q0, Enqueue(item)), init);
      StaysOnTrack(q, last, item, Attempts(init, item), StepsOn(init, item), Succeeded(init, item));
    }
  }

  /** A pending item can always take its next step, so only a run that stops early leaves it pending. */
  lemma PendingCanStep<T>(q0: State<T>, run: seq<Step<T>>, item: T) returns (next: Step<T>)
    requires q0.Absent(item) && Enqueue(item) !in run
    requires IsRun(Next(q0, Enqueue(item)), run)
    requires !Succeeded(run, item) && Attempts(run, item) < 50
    ensures next.item == item && !next.Enqueue? && Enabled(After(Next(q0, Enqueue(item)), run), next)
  {
    FiftyAttempts(q0, run, item);
    var q := After(Next(q0, Enqueue(item)), run);
    next := if item in q.waiting then Elapse(item) else if item in q.ready then Start(item) else Finish(item, false);
  }

  /** A pod that always fails is processed exactly fifty times before it is gone. */
  lemma PermanentFailure<T>(q0: State<T>, run: seq<Step<T>>, item: T)
    requires q0.Absent(item) && Enqueue(item) !in run && !Succeeded(run, item)
    requires IsRun(Next(q0, Enqueue(item)), run)
    ensures After(Next(q0, Enqueue(item)), run).Absent(item) <==> Attempts(run, item) == 50
  {
    FiftyAttempts(q0, run, item);
  }
}
