/** The bounded FIFO scheduler behind the upload relay: no wake-up is lost and no job starts twice. */
module FinalizerScheduler {
  import opened Wrappers

  /** `started` is history: the jobs handed to finalizeInBackground so far. */
  datatype View<Job> = View(queue: seq<Job>, active: nat, scheduled: bool, started: seq<Job>)

  datatype Event<Job> = Enqueue(job: Job) | Fire | Done

  function Rescheduled<Job>(v: View<Job>, max: nat): View<Job> {
    v.(scheduled := v.scheduled || (v.active < max && v.queue != []))
  }

  /** The scheduled callback starts as many queued jobs as there are free slots. */
  function Fired<Job>(v: View<Job>, max: nat): View<Job> {
    var k := Min(if v.active < max then max - v.active else 0, |v.queue|);
    View(v.queue[k..], v.active + k, false, v.started + v.queue[..k])
  }

  /** Events that cannot happen in a state leave it unchanged: only a scheduled callback fires. */
  function Next<Job>(v: View<Job>, e: Event<Job>, max: nat): View<Job> {
    match e
    case Enqueue(job) => Rescheduled(v.(queue := v.queue + [job]), max)
    case Fire => if v.scheduled then Fired(v, max) else v
    case Done => if v.active > 0 then Rescheduled(v.(active := v.active - 1), max) else v
  }

  function Run<Job>(events: seq<Event<Job>>, max: nat): View<Job>
    decreases |events|
  {
    if |events| == 0 then View([], 0, false, []) else Next(Run(events[..|events| - 1], max), events[|events| - 1], max)
  }

  function Enqueued<Job>(events: seq<Event<Job>>): seq<Job>
    decreases |events|
  {
    if |events| == 0 then []
    else
      var last := events[|events| - 1];
      Enqueued(events[..|events| - 1]) + if last.Enqueue? then [last.job] else []
  }

  ghost predicate Awake<Job>(v: View<Job>, max: nat) {
    v.active <= max && (v.scheduled ==> v.active < max) && (v.queue != [] ==> v.scheduled || v.active == max)
  }

  lemma NextKeepsAwake<Job>(v: View<Job>, e: Event<Job>, max: nat)
    requires max > 0 && Awake(v, max)
    ensures Awake(Next(v, e, max), max)
    ensures var after := Next(v, e, max);
            after.started + after.queue == v.started + v.queue + if e.Enqueue? then [e.job] else []
  {
    match e
    case Enqueue(job) => assert v.started + (v.queue + [job]) == (v.started + v.queue) + [job];
    case Fire =>
      if v.scheduled {
        var k := Min(max - v.active, |v.queue|);
        assert v.queue == v.queue[..k] + v.queue[k..];
      }
    case Done =>
  }

  /**
   * Over every run: the bound holds, a non-empty queue always has a wake-up pending (a scheduled
   * callback, or a full set of finalizers whose ends reschedule), and jobs start once, in FIFO order.
   */
  lemma {:induction false} NoLostWakeUp<Job>(events: seq<Event<Job>>, max: nat)
    requires max > 0
    ensures Awake(Run(events, max), max)
    ensures Run(events, max).started + Run(events, max).queue == Enqueued(events)
    decreases |events|
  {
    if |events| > 0 {
      var front, last := events[..|events| - 1], events[|events| - 1];
      NoLostWakeUp(front, max);
      hide Next;
      NextKeepsAwake(Run(front, max), last, max);
      assert Run(events, max) == Next(Run(front, max), last, max);
    }
  }

  /** Events that drain the queue without further clients: fire when scheduled, else finish a job. */
  function Drain<Job>(v: View<Job>, max: nat): seq<Event<Job>>
    requires max > 0 && Awake(v, max)
    decreases |v.queue|, if v.scheduled then 0 else 1
  {
    if v.queue == [] then []
    else if v.scheduled then [Fire] + Drain(Fired(v, max), max)
    else [Done] + Drain(Next(v, Done, max), max)
  }

  function RunFrom<Job>(v: View<Job>, events: seq<Event<Job>>, max: nat): View<Job>
    decreases |events|
  {
    if |events| == 0 then v else RunFrom(Next(v, events[0], max), events[1..], max)
  }

  /** Every reachable state can drain, and draining starts the waiting jobs in their order. */
  lemma {:induction false} DrainStartsEverything<Job>(v: View<Job>, max: nat)
    requires max > 0 && Awake(v, max)
    ensures var after := RunFrom(v, Drain(v, max), max);
            after.queue == [] && after.started == v.started + v.queue
    decreases |v.queue|, if v.scheduled then 0 else 1
  {
    if v.queue == [] {
    } else if v.scheduled {
      var next := Fired(v, max);
      DrainStartsEverything(next, max);
      assert ([Fire] + Drain(next, max))[1..] == Drain(next, max);
      var k := Min(max - v.active, |v.queue|);
      assert v.queue == v.queue[..k] + v.queue[k..];
      assert next.started + next.queue == v.started + v.queue;
    } else {
      var next := Next(v, Done, max);
      DrainStartsEverything(next, max);
      assert ([Done] + Drain(next, max))[1..] == Drain(next, max);
    }
  }

  class Scheduler<Job> {
    const maxConcurrent: nat
    var finalizationQueue: seq<Job>
    var activeFinalizers: nat
    var finalizerScheduled: bool
    ghost var started: seq<Job>

    ghost function State(): View<Job>
      reads this
    {
      View(finalizationQueue, activeFinalizers, finalizerScheduled, started)
    }

    constructor (max: nat)
      ensures maxConcurrent == max && State() == View([], 0, false, [])
    {
      maxConcurrent := max;
      finalizationQueue, activeFinalizers, finalizerScheduled, started := [], 0, false, [];
    }

    method ScheduleFinalizers()
      modifies this`finalizerScheduled
      ensures State() == Rescheduled(old(State()), maxConcurrent)
    {
      if finalizerScheduled || activeFinalizers >= maxConcurrent || |finalizationQueue| == 0 { return; }
      finalizerScheduled := true;
    }

    method EnqueueFinalizer(job: Job)
      modifies this
      ensures State() == Next(old(State()), Enqueue(job), maxConcurrent)
    {
      finalizationQueue := finalizationQueue + [job];
      ScheduleFinalizers();
    }

    /** The callback handed to `schedule`. */
    method RunScheduled()
      requires finalizerScheduled
      modifies this
      ensures State() == Next(old(State()), Fire, maxConcurrent)
    {
      finalizerScheduled := false;
      ghost var k := 0;
      while activeFinalizers < maxConcurrent && |finalizationQueue| > 0
        invariant 0 <= k <= |old(finalizationQueue)|
        invariant finalizationQueue == old(finalizationQueue)[k..]
        invariant started == old(started) + old(finalizationQueue)[..k]
        invariant activeFinalizers == old(activeFinalizers) + k
        invariant k > 0 ==> activeFinalizers <= maxConcurrent
        invariant !finalizerScheduled
        decreases |finalizationQueue|
      {
        var job := finalizationQueue[0];
        finalizationQueue := finalizationQueue[1..];
        activeFinalizers := activeFinalizers + 1;
        started := started + [job];
        k := k + 1;
      }
    }

    /** The `finally` branch of a finalization. */
    method FinalizationEnded()
      requires activeFinalizers > 0
      modifies this`activeFinalizers, this`finalizerScheduled
      ensures State() == Next(old(State()), Done, maxConcurrent)
    {
      activeFinalizers := activeFinalizers - 1;
      ScheduleFinalizers();
    }
  }
}
