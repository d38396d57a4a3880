/**
 * The OAuth2 Proxy supervisor of one access list: starts, stops, exits and retry timers meet in a
 * per-list queue, and generations tell the current start from the ones it replaced.
 */
module OAuth2Supervisor {
  import opened Wrappers

  const MAX_RETRIES := 3

  /** A spawned process: did it `run` at all, is it `alive`, was its exit or error event `reported`? */
  datatype Child = Child(generation: nat, retry: nat, ran: bool, alive: bool, failed: bool, reported: bool)

  /** What waits in the start queue. */
  datatype Job = Start(generation: nat, retry: nat) | Stop(stop: nat)

  /** How far the job at the head of the queue has come. */
  datatype Phase =
    | Idle
    | Terminating(job: Job, child: nat)   // SIGTERM sent, exit awaited
    | Killing(job: Job, child: nat)       // SIGKILL sent, exit awaited
    | Stopped(job: Job)                   // stopProcess() has resolved
    | Preparing(generation: nat, retry: nat)

  datatype Timer = Timer(generation: nat, retry: nat)

  /** History: where the one line of attempts of a generation now is. */
  datatype Lineage = Queued(retry: nat) | Running(retry: nat) | Spawned(child: nat) | Timed(retry: nat) | Over

  datatype State = State(
    current: Option<nat>,      // generations.get(id)
    tracked: Option<nat>,      // processes.get(id)
    timer: Option<Timer>,      // retryTimers.get(id)
    queue: seq<Job>,
    phase: Phase,
    children: seq<Child>,      // every process ever spawned
    lineage: seq<Lineage>,     // history, one per generation
    stops: seq<nat>,           // history: the number of generations when each stop() was called
    finished: set<nat>)        // history: the stops that have resolved

  datatype Event =
    | CallStart
    | CallStop
    | TimerFires
    | Begin                          // the next queued job starts
    | Resume                         // stopProcess() resolved: continue
    | PrepareFails                   // files or database: the start rejects
    | Spawn(ok: bool)                // ok: the process runs; otherwise an error event follows
    | SpawnThrows
    | Die(child: nat, failed: bool)  // failed: non-zero code, no signal
    | Report(child: nat)             // its exit (or, if it never ran, error) event
    | TermTimeout
    | KillTimeout

  function Init(): State {
    State(None, None, None, [], Idle, [], [], [], {})
  }

  predicate IsAlive(s: State, c: nat) {
    c < |s.children| && s.children[c].alive
  }

  // ---------- Steps ----------

  function Relined(s: State, g: nat, l: Lineage): (r: seq<Lineage>)
    ensures |r| == |s.lineage|
  {
    if g < |s.lineage| then s.lineage[g := l] else s.lineage
  }

  function Ended(s: State, job: Job): State {
    if job.Stop? then s.(phase := Idle) else s.(phase := Idle, lineage := Relined(s, job.generation, Over))
  }

  /** stopProcess() up to its first wait: clear the timer, detach the child and signal it. */
  function StopProcess(s: State, job: Job): State {
    var cleared := s.(timer := None, lineage := Untimed(s));
    if s.tracked.None? then cleared.(phase := Stopped(job))
    else if IsAlive(s, s.tracked.value) then cleared.(tracked := None, phase := Terminating(job, s.tracked.value))
    else cleared.(tracked := None, phase := Stopped(job))
  }

  function Untimed(s: State): (r: seq<Lineage>)
    ensures |r| == |s.lineage|
  {
    if s.timer.Some? then Relined(s, s.timer.value.generation, Over) else s.lineage
  }

  function BeginStep(s: State): State {
    if !s.phase.Idle? || s.queue == [] then s
    else
      var job := s.queue[0];
      var popped := s.(queue := s.queue[1..]);
      if job.Stop? then StopProcess(popped, job)
      else if s.current != Some(job.generation) then Ended(popped, job)
      else
        StopProcess(popped.(lineage := Relined(s, job.generation, Running(job.retry))), job)
  }

  function ResumeStep(s: State): State {
    if !s.phase.Stopped? then s
    else
      var job := s.phase.job;
      if job.Stop? then s.(phase := Idle, finished := s.finished + {job.stop})
      else if s.current != Some(job.generation) then Ended(s, job)
      else s.(phase := Preparing(job.generation, job.retry))
  }

  function SpawnStep(s: State, ok: bool): State {
    if !s.phase.Preparing? then s
    else
      var g, r := s.phase.generation, s.phase.retry;
      if s.current != Some(g) then Ended(s, Start(g, r))
      else s.(tracked := Some(|s.children|), phase := Idle, lineage := Relined(s, g, Spawned(|s.children|)),
              children := s.children + [Child(g, r, ok, ok, false, false)])
  }

  function DieStep(s: State, c: nat, failed: bool): State {
    if IsAlive(s, c) then s.(children := s.children[c := s.children[c].(alive := false, failed := failed)]) else s
  }

  /** The exit handler heeds only the tracked child of the current generation; the error handler any tracked one. */
  predicate Heeded(s: State, c: nat)
    requires c < |s.children|
  {
    s.tracked == Some(c) && (!s.children[c].ran || s.current == Some(s.children[c].generation))
  }

  predicate Retries(s: State, c: nat)
    requires c < |s.children|
  {
    Heeded(s, c) && s.children[c].ran && s.children[c].failed && s.children[c].retry < MAX_RETRIES
  }

  function Handled(s: State, c: nat): State
    requires c < |s.children|
  {
    var child := s.children[c];
    var marked := s.(children := s.children[c := child.(reported := true)]);
    if Retries(s, c) then
      marked.(tracked := None, timer := Some(Timer(child.generation, child.retry + 1)), lineage := Relined(s, child.generation, Timed(child.retry + 1)))
    else
      marked.(tracked := if Heeded(s, c) then None else s.tracked, lineage := Relined(s, child.generation, Over))
  }

  /** An exit or error event reaches the supervisor's handler, and the stop that awaits it, if any. */
  function ReportStep(s: State, c: nat): State {
    if !(c < |s.children|) || s.children[c].alive || s.children[c].reported then s
    else if (s.phase.Terminating? || s.phase.Killing?) && s.phase.child == c then Handled(s, c).(phase := Stopped(s.phase.job))
    else Handled(s, c)
  }

  function TimerStep(s: State): State {
    if s.timer.None? then s
    else
      var t := s.timer.value;
      if s.current == Some(t.generation)
      then s.(timer := None, queue := s.queue + [Start(t.generation, t.retry)], lineage := Relined(s, t.generation, Queued(t.retry)))
      else s.(timer := None, lineage := Untimed(s))
  }

  /** Events that cannot happen in a state leave it unchanged. */
  function Next(s: State, e: Event): State {
    match e
    case CallStart =>
      s.(current := Some(|s.lineage|), lineage := s.lineage + [Queued(0)], queue := s.queue + [Start(|s.lineage|, 0)])
    case CallStop => s.(current := None, queue := s.queue + [Stop(|s.stops|)], stops := s.stops + [|s.lineage|])
    case TimerFires => TimerStep(s)
    case Begin => BeginStep(s)
    case Resume => ResumeStep(s)
    case PrepareFails => if s.phase.Preparing? then Ended(s, Start(s.phase.generation, s.phase.retry)) else s
    case Spawn(ok) => SpawnStep(s, ok)
    case SpawnThrows => if s.phase.Preparing? then Ended(s, Start(s.phase.generation, s.phase.retry)) else s
    case Die(c, failed) => DieStep(s, c, failed)
    case Report(c) => ReportStep(s, c)
    case TermTimeout =>
      if !s.phase.Terminating? then s
      else if IsAlive(s, s.phase.child) then s.(phase := Killing(s.phase.job, s.phase.child))
      else s.(phase := Stopped(s.phase.job))
    case KillTimeout => if s.phase.Killing? then Ended(s.(tracked := Some(s.phase.child)), s.phase.job) else s
  }

  function Run(events: seq<Event>): State
    decreases |events|
  {
    if |events| == 0 then Init() else Next(Run(events[..|events| - 1]), events[|events| - 1])
  }

  // ---------- At most one process ----------

  /** The only process that may be alive: the tracked one, or the one being stopped. */
  function Owner(s: State): Option<nat> {
    match s.phase
    case Idle => s.tracked
    case Terminating(_, c) => Some(c)
    case Killing(_, c) => Some(c)
    case Stopped(_) => None
    case Preparing(_, _) => None
  }

  ghost predicate OwnerInv(s: State) {
    && (!s.phase.Idle? ==> s.tracked.None?)
    && (forall c: nat | IsAlive(s, c) :: Owner(s) == Some(c))
    && (s.tracked.Some? ==> s.tracked.value < |s.children|)
    && (s.phase.Terminating? || s.phase.Killing? ==> s.phase.child < |s.children|)
    && (s.timer.Some? ==> s.tracked.None? && s.phase.Idle?)
  }

  lemma NextOwner(s: State, e: Event)
    requires OwnerInv(s)
    ensures OwnerInv(Next(s, e))
  {
    hide Untimed;
  }

  lemma {:induction false} RunOwner(events: seq<Event>)
    ensures OwnerInv(Run(events))
    decreases |events|
  {
    if |events| > 0 {
      RunOwner(events[..|events| - 1]);
      hide OwnerInv, Next;
      NextOwner(Run(events[..|events| - 1]), events[|events| - 1]);
    }
  }

  /** In every reachable state at most one process is alive. */
  lemma AtMostOneAlive(events: seq<Event>, c: nat, d: nat)
    requires IsAlive(Run(events), c) && IsAlive(Run(events), d)
    ensures c == d
  {
    RunOwner(events);
    hide Run;
  }

  /** A retry is only scheduled when no other timer is pending, so no timer is ever lost track of. */
  lemma TimersNeverOverlap(events: seq<Event>, e: Event)
    requires Run(events).timer.Some? && Next(Run(events), e).timer.Some?
    ensures Next(Run(events), e).timer == Run(events).timer
  {
    RunOwner(events);
    hide Run;
  }

  // ---------- A stop is final for what came before it ----------

  ghost predicate StopsInv(s: State) {
    && (forall k | 0 <= k < |s.stops| :: s.stops[k] <= |s.lineage|)
    && (forall k | 0 <= k < |s.stops| :: s.current.Some? ==> s.current.value >= s.stops[k])
    && (s.current.Some? ==> s.current.value < |s.lineage|)
    && (forall k | k in s.finished :: k < |s.stops|)
    && (s.phase.Terminating? || s.phase.Killing? || s.phase.Stopped? ==> s.phase.job.Stop? ==> s.phase.job.stop < |s.stops|)
    && (forall i | 0 <= i < |s.queue| :: s.queue[i].Stop? ==> s.queue[i].stop < |s.stops|)
  }

  /** No process of a generation older than a resolved stop is alive. */
  ghost predicate FinishedInv(s: State) {
    forall k, c: nat | k in s.finished && k < |s.stops| && IsAlive(s, c) :: s.children[c].generation >= s.stops[k]
  }

  lemma NextStops(s: State, e: Event)
    requires StopsInv(s)
    ensures StopsInv(Next(s, e))
    ensures |Next(s, e).stops| >= |s.stops| && forall k | 0 <= k < |s.stops| :: Next(s, e).stops[k] == s.stops[k]
  {
    hide Relined, Untimed, IsAlive, Retries, Heeded;
  }

  lemma NextFinished(s: State, e: Event)
    requires OwnerInv(s) && StopsInv(s) && FinishedInv(s)
    ensures FinishedInv(Next(s, e))
  {
    var t := Next(s, e);
    forall k, c: nat | k in t.finished && k < |t.stops| && IsAlive(t, c) ensures t.children[c].generation >= t.stops[k] {
      assert c < |s.children| ==> IsAlive(s, c);
    }
  }

  /** A spawn after a stop was called belongs to a generation begun after that call. */
  lemma SpawnIsCurrent(s: State, e: Event, k: nat)
    requires StopsInv(s) && k < |s.stops| && |Next(s, e).children| > |s.children|
    ensures Next(s, e).children[|s.children|].generation >= s.stops[k]
  {
  }

  lemma {:induction false} RunStops(events: seq<Event>)
    ensures StopsInv(Run(events)) && FinishedInv(Run(events))
    decreases |events|
  {
    if |events| > 0 {
      var front := events[..|events| - 1];
      RunStops(front);
      RunOwner(front);
      hide StopsInv, FinishedInv, OwnerInv, Next;
      NextStops(Run(front), events[|events| - 1]);
      NextFinished(Run(front), events[|events| - 1]);
    }
  }

  /** Once a stop has resolved, every process alive then or later was started after that stop was called. */
  lemma StopIsFinal(events: seq<Event>, k: nat, c: nat)
    requires k in Run(events).finished && IsAlive(Run(events), c)
    ensures k < |Run(events).stops| && Run(events).children[c].generation >= Run(events).stops[k]
  {
    RunStops(events);
    hide Run;
  }

  /** From the call of a stop on, nothing queued or timed by an older generation spawns any more. */
  lemma {:induction false} NoLateSpawn(events: seq<Event>, e: Event, k: nat)
    requires k < |Run(events).stops| && |Run(events + [e]).children| > |Run(events).children|
    ensures Run(events + [e]).children[|Run(events).children|].generation >= Run(events).stops[k]
  {
    assert (events + [e])[..|events|] == events;
    RunStops(events);
    SpawnIsCurrent(Run(events), e, k);
  }

  // ---------- Bounded restarts ----------

  ghost predicate LineIs(s: State, g: nat, l: Lineage) {
    g < |s.lineage| && s.lineage[g] == l
  }

  /** Every attempt of a generation is where its one line says. */
  ghost predicate QueueInv(s: State) {
    && (forall i | 0 <= i < |s.queue| && s.queue[i].Start? :: LineIs(s, s.queue[i].generation, Queued(s.queue[i].retry)))
    && (forall i, j | 0 <= i < j < |s.queue| && s.queue[i].Start? && s.queue[j].Start? :: s.queue[i].generation != s.queue[j].generation)
  }

  ghost predicate PhaseOk(s: State, p: Phase) {
    if p.Idle? then true
    else if p.Preparing? then LineIs(s, p.generation, Running(p.retry))
    else p.job.Start? ==> LineIs(s, p.job.generation, Running(p.job.retry))
  }

  ghost predicate PlacesInv(s: State) {
    && QueueInv(s) && PhaseOk(s, s.phase)
    && (s.timer.Some? ==> LineIs(s, s.timer.value.generation, Timed(s.timer.value.retry)))
  }

  /** The retry number of the latest attempt on a line. */
  function Attempt(s: State, l: Lineage): nat {
    match l
    case Queued(r) => r
    case Running(r) => r
    case Timed(r) => r
    case Spawned(c) => if c < |s.children| then s.children[c].retry else 0
    case Over => MAX_RETRIES + 1
  }

  ghost predicate LinesInv(s: State) {
    && (forall g | 0 <= g < |s.lineage| && !s.lineage[g].Over? :: Attempt(s, s.lineage[g]) <= MAX_RETRIES)
    && (forall g | 0 <= g < |s.lineage| && s.lineage[g].Spawned? ::
          s.lineage[g].child < |s.children| && s.children[s.lineage[g].child].generation == g)
  }

  ghost predicate ChildOk(s: State, c: nat)
    requires c < |s.children|
  {
    var child := s.children[c];
    && child.generation < |s.lineage| && child.retry <= MAX_RETRIES
    && (!child.reported ==> s.lineage[child.generation] == Spawned(c))
    && (s.lineage[child.generation] != Spawned(c) ==> child.retry < Attempt(s, s.lineage[child.generation]))
  }

  ghost predicate ChildrenInv(s: State) {
    && (forall c: nat | c < |s.children| :: ChildOk(s, c))
    && (forall c, d | 0 <= c < d < |s.children| && s.children[c].generation == s.children[d].generation ::
          s.children[c].retry < s.children[d].retry)
  }

  ghost predicate RetryInv(s: State) {
    PlacesInv(s) && LinesInv(s) && ChildrenInv(s)
  }

  /** No queued job, timer or running job belongs to generation g. */
  ghost predicate Free(s: State, g: nat) {
    && (forall i | 0 <= i < |s.queue| && s.queue[i].Start? :: s.queue[i].generation != g)
    && (s.timer.Some? ==> s.timer.value.generation != g)
    && (if s.phase.Idle? then true else if s.phase.Preparing? then s.phase.generation != g
        else s.phase.job.Start? ==> s.phase.job.generation != g)
  }

  /** Moving a line that nothing refers to: its attempts never go back. */
  lemma MoveLine(s: State, g: nat, l: Lineage)
    requires RetryInv(s) && g < |s.lineage| && Free(s, g)
    requires !l.Spawned? && (l.Over? || Attempt(s, l) <= MAX_RETRIES)
    requires if s.lineage[g].Spawned? then s.children[s.lineage[g].child].reported && Attempt(s, l) > Attempt(s, s.lineage[g])
             else Attempt(s, l) >= Attempt(s, s.lineage[g])
    ensures RetryInv(s.(lineage := Relined(s, g, l)))
  {
    var t := s.(lineage := Relined(s, g, l));
    forall c: nat | c < |t.children| ensures ChildOk(t, c) { assert ChildOk(s, c); }
    assert LinesInv(t);
    assert QueueInv(t);
  }

  lemma DropTimer(s: State)
    requires RetryInv(s)
    ensures RetryInv(s.(timer := None))
    ensures s.timer.Some? ==> s.timer.value.generation < |s.lineage| && Free(s.(timer := None), s.timer.value.generation)
  {
    Unchanged(s, s.(timer := None));
  }

  /** The lines and the children alone. */
  lemma Unchanged(s: State, t: State)
    requires RetryInv(s) && t.lineage == s.lineage && t.children == s.children
    ensures LinesInv(t) && ChildrenInv(t)
  {
    forall c: nat | c < |t.children| ensures ChildOk(t, c) { assert ChildOk(s, c); }
  }

  lemma Pop(s: State)
    requires RetryInv(s) && s.queue != []
    ensures RetryInv(s.(queue := s.queue[1..]))
    ensures var job := s.queue[0];
            job.Start? ==> Free(s.(queue := s.queue[1..]), job.generation) && LineIs(s, job.generation, Queued(job.retry))
  {
    Unchanged(s, s.(queue := s.queue[1..]));
  }

  lemma Push(s: State, job: Job)
    requires RetryInv(s) && (job.Start? ==> Free(s, job.generation) && LineIs(s, job.generation, Queued(job.retry)))
    ensures RetryInv(s.(queue := s.queue + [job]))
  {
    Unchanged(s, s.(queue := s.queue + [job]));
  }

  lemma SetPhase(s: State, p: Phase, tracked: Option<nat>)
    requires RetryInv(s) && PhaseOk(s, p)
    ensures RetryInv(s.(phase := p, tracked := tracked))
  {
    Unchanged(s, s.(phase := p, tracked := tracked));
  }

  lemma SetTimer(s: State, t: Timer)
    requires RetryInv(s) && LineIs(s, t.generation, Timed(t.retry))
    ensures RetryInv(s.(timer := Some(t), tracked := None))
  {
    Unchanged(s, s.(timer := Some(t), tracked := None));
  }

  lemma Mark(s: State, c: nat, child: Child)
    requires RetryInv(s) && c < |s.children|
    requires child.generation == s.children[c].generation && child.retry == s.children[c].retry
    requires child.reported == s.children[c].reported || child.reported
    ensures RetryInv(s.(children := s.children[c := child]))
  {
    var t := s.(children := s.children[c := child]);
    forall d: nat | d < |t.children| ensures ChildOk(t, d) { assert ChildOk(s, d); }
    assert LinesInv(t) && QueueInv(t);
  }

  /** The running job of a phase may end: its line is over. */
  lemma EndRetry(s: State, job: Job)
    requires RetryInv(s) && !s.phase.Idle?
    requires job == if s.phase.Preparing? then Start(s.phase.generation, s.phase.retry) else s.phase.job
    ensures forall tracked :: RetryInv(Ended(s.(tracked := tracked), job))
  {
    forall tracked ensures RetryInv(Ended(s.(tracked := tracked), job)) {
      var idle := s.(phase := Idle, tracked := tracked);
      SetPhase(s, Idle, tracked);
      if job.Start? {
        assert Free(idle, job.generation);
        MoveLine(idle, job.generation, Over);
      }
    }
  }

  lemma StopRetry(s: State, job: Job)
    requires RetryInv(s) && (job.Start? ==> LineIs(s, job.generation, Running(job.retry)))
    ensures RetryInv(StopProcess(s, job))
  {
    var untimed := s.(timer := None);
    DropTimer(s);
    if s.timer.Some? {
      MoveLine(untimed, s.timer.value.generation, Over);
    }
    var cleared := s.(timer := None, lineage := Untimed(s));
    assert PhaseOk(cleared, Stopped(job));
    hide RetryInv;
    assert RetryInv(cleared);
    SetPhase(cleared, Stopped(job), None);
    SetPhase(cleared, Stopped(job), cleared.tracked);
    if s.tracked.Some? {
      assert PhaseOk(cleared, Terminating(job, s.tracked.value));
      SetPhase(cleared, Terminating(job, s.tracked.value), None);
    }
  }

  lemma BeginRetry(s: State)
    requires RetryInv(s)
    ensures RetryInv(BeginStep(s))
  {
    if s.phase.Idle? && s.queue != [] {
      var job := s.queue[0];
      var popped := s.(queue := s.queue[1..]);
      Pop(s);
      if job.Start? {
        var g, r := job.generation, job.retry;
        MoveLine(popped, g, Over);
        assert LinesInv(s);
        MoveLine(popped, g, Running(r));
        hide RetryInv, StopProcess;
        if s.current == Some(g) {
          StopRetry(popped.(lineage := Relined(s, g, Running(r))), job);
        }
      } else {
        hide RetryInv, StopProcess;
        StopRetry(popped, job);
      }
    }
  }

  lemma ResumeRetry(s: State)
    requires RetryInv(s)
    ensures RetryInv(ResumeStep(s))
  {
    if s.phase.Stopped? {
      EndRetry(s, s.phase.job);
      if s.phase.job.Stop? {
        Unchanged(s, ResumeStep(s));
      } else { SetPhase(s, Preparing(s.phase.job.generation, s.phase.job.retry), s.tracked); }
    }
  }

  lemma SpawnRetry(s: State, ok: bool)
    requires RetryInv(s)
    ensures RetryInv(SpawnStep(s, ok))
  {
    if s.phase.Preparing? {
      EndRetry(s, Start(s.phase.generation, s.phase.retry));
      var t := SpawnStep(s, ok);
      if s.current == Some(s.phase.generation) {
        forall c: nat | c < |t.children| ensures ChildOk(t, c) {
          assert c < |s.children| ==> ChildOk(s, c);
        }
        assert LinesInv(t);
        forall c, d | 0 <= c < d < |t.children| && t.children[c].generation == t.children[d].generation
          ensures t.children[c].retry < t.children[d].retry
        {
          assert ChildOk(s, c);
        }
        assert PlacesInv(t);
      }
    }
  }

  /** The line of a reported child is free to end, or to go on with a timer. */
  lemma ReportedLine(s: State, c: nat)
    requires RetryInv(s) && c < |s.children| && !s.children[c].reported
    ensures var child := s.children[c];
            var marked := s.(children := s.children[c := child.(reported := true)]);
            && LineIs(s, child.generation, Spawned(c)) && RetryInv(marked) && Free(marked, child.generation)
            && RetryInv(marked.(lineage := Relined(s, child.generation, Over)))
            && (child.retry < MAX_RETRIES ==> RetryInv(marked.(lineage := Relined(s, child.generation, Timed(child.retry + 1)))))
  {
    var child := s.children[c];
    var g := child.generation;
    var marked := s.(children := s.children[c := child.(reported := true)]);
    Mark(s, c, child.(reported := true));
    assert ChildOk(s, c) && LineIs(s, g, Spawned(c));
    assert Free(marked, g);
    MoveLine(marked, g, Over);
    if child.retry < MAX_RETRIES { MoveLine(marked, g, Timed(child.retry + 1)); }
  }

  lemma ReportRetry(s: State, c: nat)
    requires RetryInv(s)
    ensures RetryInv(ReportStep(s, c))
  {
    if c < |s.children| && !s.children[c].alive && !s.children[c].reported {
      var child := s.children[c];
      var g := child.generation;
      var marked := s.(children := s.children[c := child.(reported := true)]);
      ReportedLine(s, c);
      var h := Handled(s, c);
      assert PhaseOk(h, s.phase) && (!s.phase.Idle? && !s.phase.Preparing? ==> PhaseOk(h, Stopped(s.phase.job)));
      hide RetryInv;
      if Retries(s, c) {
        SetTimer(marked.(lineage := Relined(s, g, Timed(child.retry + 1))), Timer(g, child.retry + 1));
      } else {
        SetPhase(marked.(lineage := Relined(s, g, Over)), s.phase, if Heeded(s, c) then None else s.tracked);
      }
      assert RetryInv(h);
      if s.phase.Terminating? || s.phase.Killing? { SetPhase(h, Stopped(s.phase.job), h.tracked); }
    }
  }

  lemma TimerRetry(s: State)
    requires RetryInv(s)
    ensures RetryInv(TimerStep(s))
  {
    if s.timer.Some? {
      var t := s.timer.value;
      var g := t.generation;
      DropTimer(s);
      MoveLine(s.(timer := None), g, Over);
      assert t.retry <= MAX_RETRIES;
      MoveLine(s.(timer := None), g, Queued(t.retry));
      Push(s.(timer := None, lineage := Relined(s, g, Queued(t.retry))), Start(g, t.retry));
    }
  }

  lemma CallStartRetry(s: State)
    requires RetryInv(s)
    ensures RetryInv(Next(s, CallStart))
  {
    var n := |s.lineage|;
    var t := s.(current := Some(n), lineage := s.lineage + [Queued(0)]);
    forall c: nat | c < |t.children| ensures ChildOk(t, c) { assert ChildOk(s, c); }
    assert RetryInv(t);
    Push(t, Start(n, 0));
  }

  lemma TimeoutRetry(s: State, e: Event)
    requires RetryInv(s) && (e.TermTimeout? || e.KillTimeout? || e.CallStop?)
    ensures RetryInv(Next(s, e))
  {
    if e.CallStop? {
      Push(s, Stop(|s.stops|));
      Unchanged(s.(queue := s.queue + [Stop(|s.stops|)]), Next(s, e));
    } else if e.TermTimeout? && s.phase.Terminating? {
      SetPhase(s, Killing(s.phase.job, s.phase.child), s.tracked);
      SetPhase(s, Stopped(s.phase.job), s.tracked);
    } else if e.KillTimeout? && s.phase.Killing? {
      EndRetry(s, s.phase.job);
    }
  }

  lemma NextRetry(s: State, e: Event)
    requires RetryInv(s)
    ensures RetryInv(Next(s, e))
  {
    hide RetryInv, BeginStep, ResumeStep, SpawnStep, ReportStep, TimerStep, Ended;
    match e
    case CallStart => CallStartRetry(s);
    case CallStop => TimeoutRetry(s, e);
    case TimerFires => TimerRetry(s);
    case Begin => BeginRetry(s);
    case Resume => ResumeRetry(s);
    case PrepareFails => if s.phase.Preparing? { EndRetry(s, Start(s.phase.generation, s.phase.retry)); assert s.(tracked := s.tracked) == s; }
    case Spawn(ok) => SpawnRetry(s, ok);
    case SpawnThrows => if s.phase.Preparing? { EndRetry(s, Start(s.phase.generation, s.phase.retry)); assert s.(tracked := s.tracked) == s; }
    case Die(c, failed) => if IsAlive(s, c) { Mark(s, c, s.children[c].(alive := false, failed := failed)); }
    case Report(c) => ReportRetry(s, c);
    case TermTimeout => TimeoutRetry(s, e);
    case KillTimeout => TimeoutRetry(s, e);
  }

  lemma {:induction false} RunRetry(events: seq<Event>)
    ensures RetryInv(Run(events))
    decreases |events|
  {
    if |events| > 0 {
      RunRetry(events[..|events| - 1]);
      hide RetryInv, Next;
      NextRetry(Run(events[..|events| - 1]), events[|events| - 1]);
    }
  }

  function Spawns(children: seq<Child>, g: nat): nat
    decreases |children|
  {
    if |children| == 0 then 0
    else Spawns(children[..|children| - 1], g) + if children[|children| - 1].generation == g then 1 else 0
  }

  lemma {:induction false} IncreasingRetries(children: seq<Child>, g: nat, bound: nat)
    requires forall c, d | 0 <= c < d < |children| && children[c].generation == children[d].generation :: children[c].retry < children[d].retry
    requires forall c | 0 <= c < |children| && children[c].generation == g :: children[c].retry < bound
    ensures Spawns(children, g) <= bound
    decreases |children|
  {
    if |children| > 0 {
      var last := children[|children| - 1];
      IncreasingRetries(children[..|children| - 1], g, if last.generation == g then last.retry else bound);
    }
  }

  /**
   * One explicit start leads to at most one spawn and MAX_RETRIES automatic restarts, however its
   * timers and exits interleave with other starts and stops; each restart has a higher number.
   */
  lemma RestartsAreBounded(events: seq<Event>, g: nat)
    ensures Spawns(Run(events).children, g) <= 1 + MAX_RETRIES
    ensures forall c, d | 0 <= c < d < |Run(events).children| && Run(events).children[c].generation == Run(events).children[d].generation ::
              Run(events).children[c].retry < Run(events).children[d].retry
  {
    RunRetry(events);
    hide Run;
    var s := Run(events);
    forall c | 0 <= c < |s.children| && s.children[c].generation == g ensures s.children[c].retry < 1 + MAX_RETRIES {
      assert ChildOk(s, c);
    }
    IncreasingRetries(s.children, g, 1 + MAX_RETRIES);
  }

  // ---------- The supervisor ----------

  /** The maps' entries for one access list, as the handlers update them. */
  class Supervisor {
    var current: Option<nat>
    var tracked: Option<nat>
    var timer: Option<Timer>
    var queue: seq<Job>
    var phase: Phase
    var children: seq<Child>
    var generationCount: nat
    var stopCount: nat
    ghost var lineage: seq<Lineage>
    ghost var stops: seq<nat>
    ghost var finished: set<nat>

    ghost function View(): State
      reads this
    {
      State(current, tracked, timer, queue, phase, children, lineage, stops, finished)
    }

    ghost predicate Valid()
      reads this
    {
      generationCount == |lineage| && stopCount == |stops|
    }

    constructor ()
      ensures Valid() && View() == Init()
    {
      current, tracked, timer, queue, phase, children := None, None, None, [], Idle, [];
      generationCount, stopCount, lineage, stops, finished := 0, 0, [], [], {};
    }

    /** start() up to the queue. */
    method RequestStart()
      requires Valid()
      modifies this
      ensures Valid() && View() == Next(old(View()), CallStart)
    {
      current := Some(generationCount);
      queue := queue + [Start(generationCount, 0)];
      lineage := lineage + [Queued(0)];
      generationCount := generationCount + 1;
    }

    method RequestStop()
      requires Valid()
      modifies this
      ensures Valid() && View() == Next(old(View()), CallStop)
    {
      current := None;
      queue := queue + [Stop(stopCount)];
      stops := stops + [|lineage|];
      stopCount := stopCount + 1;
    }

    method RetryTimerFired()
      requires Valid()
      modifies this
      ensures Valid() && View() == Next(old(View()), TimerFires)
    {
      if timer.None? {
        return;
      }
      var t := timer.value;
      timer := None;
      if current != Some(t.generation) {
        lineage := Relined(old(View()), t.generation, Over);
        return;
      }
      queue := queue + [Start(t.generation, t.retry)];
      lineage := Relined(old(View()), t.generation, Queued(t.retry));
    }

    /** stopProcess() up to its wait for the child. */
    method StopChild(job: Job)
      requires Valid()
      modifies this`timer, this`tracked, this`phase, this`lineage
      ensures Valid() && View() == StopProcess(old(View()), job)
    {
      lineage := Untimed(View());
      timer := None;
      if tracked.None? {
        phase := Stopped(job);
        return;
      }
      var child := tracked.value;
      tracked := None;
      if child < |children| && children[child].alive {
        phase := Terminating(job, child);
      } else {
        phase := Stopped(job);
      }
    }

    method RunNextJob()
      requires Valid()
      modifies this
      ensures Valid() && View() == Next(old(View()), Begin)
    {
      if !phase.Idle? || queue == [] {
        return;
      }
      var job := queue[0];
      queue := queue[1..];
      if job.Start? {
        if current != Some(job.generation) {
          lineage := Relined(View(), job.generation, Over);
          return;
        }
        lineage := Relined(View(), job.generation, Running(job.retry));
      }
      StopChild(job);
    }

    method ChildStopped()
      requires Valid()
      modifies this
      ensures Valid() && View() == Next(old(View()), Resume)
    {
      if !phase.Stopped? {
        return;
      }
      var job := phase.job;
      match job {
        case Stop(stop) =>
          phase := Idle;
          finished := finished + {stop};
        case Start(generation, retry) =>
          if current != Some(generation) {
            phase := Idle;
            lineage := Relined(View(), generation, Over);
          } else {
            phase := Preparing(generation, retry);
          }
      }
    }

    method SpawnChild(ok: bool)
      requires Valid()
      modifies this
      ensures Valid() && View() == Next(old(View()), Spawn(ok))
    {
      if !phase.Preparing? {
        return;
      }
      var generation, retry := phase.generation, phase.retry;
      phase := Idle;
      if current != Some(generation) {
        lineage := Relined(View(), generation, Over);
        return;
      }
      tracked := Some(|children|);
      lineage := Relined(View(), generation, Spawned(|children|));
      children := children + [Child(generation, retry, ok, ok, false, false)];
    }

    /** The child's exit or error event, with the handlers registered on it. */
    method ChildReported(c: nat)
      requires Valid()
      modifies this
      ensures Valid() && View() == Next(old(View()), Report(c))
      ensures if c < |old(children)| && !old(children)[c].alive && !old(children)[c].reported then
                var child := old(children)[c];
                var heeded := old(tracked) == Some(c) && (!child.ran || old(current) == Some(child.generation));
                && timer == (if heeded && child.ran && child.failed && child.retry < MAX_RETRIES
                             then Some(Timer(child.generation, child.retry + 1)) else old(timer))
                && tracked == (if heeded then None else old(tracked))
                && children == old(children)[c := child.(reported := true)]
              else timer == old(timer) && tracked == old(tracked) && children == old(children) && phase == old(phase)
    {
      hide Relined;
      if c >= |children| || children[c].alive || children[c].reported {
        return;
      }
      var child := children[c];
      children := children[c := child.(reported := true)];
      var awaited := (phase.Terminating? || phase.Killing?) && phase.child == c;
      var next := Over;
      if tracked == Some(c) && (!child.ran || current == Some(child.generation)) {
        tracked := None;
        if child.ran && child.failed && child.retry < MAX_RETRIES {
          timer := Some(Timer(child.generation, child.retry + 1));
          next := Timed(child.retry + 1);
        }
      }
      lineage := Relined(old(View()), child.generation, next);
      if awaited {
        phase := Stopped(phase.job);
      }
    }

    method KillAfterTimeout()
      requires Valid()
      modifies this
      ensures Valid() && View() == Next(old(View()), TermTimeout)
    {
      if phase.Terminating? {
        if phase.child < |children| && children[phase.child].alive {
          phase := Killing(phase.job, phase.child);
        } else {
          phase := Stopped(phase.job);
        }
      }
    }

    /** Even SIGKILL had no effect: track the child again and reject the job. */
    method GiveUpStopping()
      requires Valid()
      modifies this
      ensures Valid() && View() == Next(old(View()), KillTimeout)
    {
      if phase.Killing? {
        tracked := Some(phase.child);
        if phase.job.Start? {
          lineage := Relined(View(), phase.job.generation, Over);
        }
        phase := Idle;
      }
    }
  }
}
