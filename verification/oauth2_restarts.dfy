/** Which exits are restarted: only failures, and every failure that has a retry left. */
module OAuth2Restarts {
  import opened Wrappers
  import opened OAuth2Supervisor

  // ---------- Only failures ----------

  /** An earlier process of this generation was attempt r - 1, ran, and ended with a failure. */
  ghost predicate FailedBefore(children: seq<Child>, g: nat, r: nat) {
    r > 0 ==> exists c: nat :: c < |children| && children[c].generation == g && children[c].retry == r - 1
                               && children[c].ran && children[c].failed && !children[c].alive
  }

  ghost predicate JobOk(children: seq<Child>, job: Job) {
    job.Start? ==> FailedBefore(children, job.generation, job.retry)
  }

  ghost predicate PhaseJobOk(children: seq<Child>, p: Phase) {
    if p.Idle? then true
    else if p.Preparing? then FailedBefore(children, p.generation, p.retry)
    else JobOk(children, p.job)
  }

  ghost predicate FailureInv(s: State) {
    && (forall i | 0 <= i < |s.queue| :: JobOk(s.children, s.queue[i]))
    && PhaseJobOk(s.children, s.phase)
    && (s.timer.Some? ==> FailedBefore(s.children, s.timer.value.generation, s.timer.value.retry))
    && (forall c | 0 <= c < |s.children| :: FailedBefore(s.children[..c], s.children[c].generation, s.children[c].retry))
  }

  /** Processes that have ended stay as they are; new ones come behind. */
  ghost predicate Continues(before: seq<Child>, after: seq<Child>) {
    && |before| <= |after|
    && forall c | 0 <= c < |before| ::
         && after[c].generation == before[c].generation && after[c].retry == before[c].retry && after[c].ran == before[c].ran
         && (!before[c].alive ==> !after[c].alive && after[c].failed == before[c].failed)
  }

  lemma FailedStays(before: seq<Child>, after: seq<Child>, g: nat, r: nat)
    requires Continues(before, after) && FailedBefore(before, g, r)
    ensures FailedBefore(after, g, r)
  {
  }

  lemma NextContinues(s: State, e: Event)
    ensures Continues(s.children, Next(s, e).children)
    ensures |Next(s, e).children| <= |s.children| + 1
  {
    hide Relined, Untimed;
  }

  /** Where the places of the next state come from. */
  lemma Sources(s: State, e: Event)
    ensures var t := Next(s, e);
            && (forall i | 0 <= i < |t.queue| ::
                  t.queue[i] in s.queue || t.queue[i].Stop? || t.queue[i].retry == 0
                  || (s.timer.Some? && t.queue[i] == Start(s.timer.value.generation, s.timer.value.retry)))
            && (t.timer == s.timer || t.timer.None?
                || (e.Report? && e.child < |s.children|
                    && s.children[e.child].ran && s.children[e.child].failed && !s.children[e.child].alive
                    && t.timer == Some(Timer(s.children[e.child].generation, s.children[e.child].retry + 1))))
            && (|t.children| > |s.children| ==>
                  s.phase.Preparing? && t.children[|s.children|].generation == s.phase.generation
                  && t.children[|s.children|].retry == s.phase.retry)
  {
    hide Relined, Untimed;
  }

  lemma PhaseSource(s: State, e: Event)
    ensures var t := Next(s, e);
            || t.phase == s.phase || t.phase.Idle?
            || (s.phase.Idle? && s.queue != [] && !t.phase.Preparing? && t.phase.job == s.queue[0])
            || ((s.phase.Terminating? || s.phase.Killing?) && !t.phase.Preparing? && t.phase.job == s.phase.job)
            || (s.phase.Stopped? && t.phase.Preparing? && s.phase.job == Start(t.phase.generation, t.phase.retry))
  {
    hide Relined, Untimed, Retries, Heeded;
  }

  /** Attempt zero needs no failure; any other keeps the one it had. */
  lemma Carried(before: seq<Child>, after: seq<Child>, g: nat, r: nat)
    requires Continues(before, after)
    ensures r == 0 || FailedBefore(before, g, r) ==> FailedBefore(after, g, r)
  {
    if FailedBefore(before, g, r) { FailedStays(before, after, g, r); }
  }

  lemma FailureCounts(children: seq<Child>, c: nat)
    requires c < |children| && children[c].ran && children[c].failed && !children[c].alive
    ensures FailedBefore(children, children[c].generation, children[c].retry + 1)
  {
  }

  lemma ChildrenFailure(s: State, e: Event)
    requires FailureInv(s)
    ensures forall c | 0 <= c < |Next(s, e).children| ::
              FailedBefore(Next(s, e).children[..c], Next(s, e).children[c].generation, Next(s, e).children[c].retry)
  {
    var t := Next(s, e);
    NextContinues(s, e);
    Sources(s, e);
    hide Next, FailedBefore;
    forall c | 0 <= c < |t.children| ensures FailedBefore(t.children[..c], t.children[c].generation, t.children[c].retry) {
      if c < |s.children| {
        FailedStays(s.children[..c], t.children[..c], s.children[c].generation, s.children[c].retry);
      } else {
        assert s.children[..c] == s.children;
        FailedStays(s.children, t.children[..c], t.children[c].generation, t.children[c].retry);
      }
    }
  }

  lemma {:induction false} NextFailure(s: State, e: Event)
    requires FailureInv(s)
    ensures FailureInv(Next(s, e))
  {
    var t := Next(s, e);
    NextContinues(s, e);
    Sources(s, e);
    PhaseSource(s, e);
    hide Next, Continues, FailedBefore;
    forall i | 0 <= i < |t.queue| ensures JobOk(t.children, t.queue[i]) {
      if t.queue[i] in s.queue {
        var j :| 0 <= j < |s.queue| && s.queue[j] == t.queue[i];
        assert JobOk(s.children, s.queue[j]);
      }
      if t.queue[i].Start? { Carried(s.children, t.children, t.queue[i].generation, t.queue[i].retry); }
    }
    assert s.queue != [] ==> JobOk(s.children, s.queue[0]);
    if t.phase.Preparing? {
      Carried(s.children, t.children, t.phase.generation, t.phase.retry);
    } else if !t.phase.Idle? && t.phase.job.Start? {
      Carried(s.children, t.children, t.phase.job.generation, t.phase.job.retry);
    }
    if t.timer.Some? {
      if t.timer != s.timer { FailureCounts(s.children, e.child); }
      Carried(s.children, t.children, t.timer.value.generation, t.timer.value.retry);
    }
    ChildrenFailure(s, e);
  }

  lemma {:induction false} RunFailure(events: seq<Event>)
    ensures FailureInv(Run(events))
    decreases |events|
  {
    if |events| > 0 {
      RunFailure(events[..|events| - 1]);
      hide FailureInv, Next;
      NextFailure(Run(events[..|events| - 1]), events[|events| - 1]);
    }
  }

  /**
   * Over every run: a process spawned as attempt k + 1 has an earlier process of the same generation that was attempt
   * k, ran and ended with a failure. A clean exit, a signal or an error event restarts nothing.
   */
  lemma {:induction false} RestartsFollowFailures(events: seq<Event>, d: nat) returns (c: nat)
    requires d < |Run(events).children| && Run(events).children[d].retry > 0
    ensures var children := Run(events).children;
            && c < d && children[c].generation == children[d].generation && children[c].retry + 1 == children[d].retry
            && children[c].ran && children[c].failed && !children[c].alive
  {
    RunFailure(events);
    var children := Run(events).children;
    assert FailedBefore(children[..d], children[d].generation, children[d].retry);
    hide Run;
    c :| c < |children[..d]| && children[..d][c].generation == children[d].generation
         && children[..d][c].retry == children[d].retry - 1
         && children[..d][c].ran && children[..d][c].failed && !children[..d][c].alive;
  }

  /** What `failed` and `ran` say: a process that ran ends failed exactly if its exit said so. */
  lemma {:induction false} DieRecords(events: seq<Event>, c: nat, failed: bool)
    requires IsAlive(Run(events), c)
    ensures var child := Run(events + [Die(c, failed)]).children[c]; !child.alive && child.failed == failed
  {
    assert (events + [Die(c, failed)])[..|events|] == events;
    hide Run;
  }

  // ---------- Every failure with a retry left ----------

  /** The queue holds nothing older than the current start, and nothing once that start has begun. */
  ghost predicate QueueOfCurrent(s: State) {
    s.current.Some? ==>
      var g := s.current.value;
      && g < |s.lineage|
      && (!s.lineage[g].Queued? ==> s.queue == [])
      && (forall i | 0 <= i < |s.queue| && s.queue[i].Start? && s.queue[i].generation == g :: i == |s.queue| - 1)
  }

  lemma RelinedElsewhere(s: State, g: nat, l: Lineage, h: nat)
    requires h < |s.lineage|
    ensures Relined(s, g, l)[h] == if g == h then l else s.lineage[h]
  {
  }

  lemma UntimedElsewhere(s: State, h: nat)
    requires h < |s.lineage|
    ensures Untimed(s)[h] == if s.timer.Some? && s.timer.value.generation == h then Over else s.lineage[h]
  {
  }

  lemma BeginCurrent(s: State)
    requires RetryInv(s) && QueueOfCurrent(s)
    ensures QueueOfCurrent(BeginStep(s))
  {
    if s.phase.Idle? && s.queue != [] && s.current.Some? {
      var g := s.current.value;
      assert s.queue[0].Start? ==> LineIs(s, s.queue[0].generation, Queued(s.queue[0].retry));
      assert s.timer.Some? ==> LineIs(s, s.timer.value.generation, Timed(s.timer.value.retry));
      hide RetryInv;
    }
  }

  lemma CallCurrent(s: State, e: Event)
    requires RetryInv(s) && QueueOfCurrent(s) && (e.CallStart? || e.CallStop? || e.TimerFires?)
    ensures QueueOfCurrent(Next(s, e))
  {
    assert forall i | 0 <= i < |s.queue| && s.queue[i].Start? :: s.queue[i].generation < |s.lineage|;
    assert s.timer.Some? ==> LineIs(s, s.timer.value.generation, Timed(s.timer.value.retry));
    hide RetryInv;
  }

  lemma ReportCurrent(s: State, c: nat)
    requires RetryInv(s) && QueueOfCurrent(s)
    ensures QueueOfCurrent(ReportStep(s, c))
  {
    if c < |s.children| && !s.children[c].alive && !s.children[c].reported {
      assert ChildOk(s, c);
      hide RetryInv;
    }
  }

  lemma OtherCurrent(s: State, e: Event)
    requires RetryInv(s) && QueueOfCurrent(s)
    requires !e.CallStart? && !e.CallStop? && !e.TimerFires? && !e.Begin? && !e.Report?
    ensures QueueOfCurrent(Next(s, e))
  {
    assert PhaseOk(s, s.phase);
    hide RetryInv;
  }

  lemma {:induction false} RunCurrent(events: seq<Event>)
    ensures QueueOfCurrent(Run(events))
    decreases |events|
  {
    if |events| > 0 {
      var front, e := events[..|events| - 1], events[|events| - 1];
      RunCurrent(front);
      RunRetry(front);
      hide RetryInv, QueueOfCurrent, BeginStep, ReportStep;
      if e.CallStart? || e.CallStop? || e.TimerFires? { CallCurrent(Run(front), e); }
      else if e.Begin? { BeginCurrent(Run(front)); }
      else if e.Report? { ReportCurrent(Run(front), e.child); }
      else { OtherCurrent(Run(front), e); }
    }
  }

  /** Attempt r of the current start is on its way, or has been spawned. */
  ghost predicate Pursued(s: State, g: nat, r: nat) {
    || (exists c: nat :: c < |s.children| && s.children[c].generation == g && s.children[c].retry == r)
    || (&& s.current == Some(g) && s.tracked.None?
        && (|| (s.timer == Some(Timer(g, r)) && s.queue == [] && s.phase.Idle?)
            || (s.timer.None? && s.queue == [Start(g, r)] && s.phase.Idle?)
            || (s.timer.None? && s.queue == [] && (s.phase == Stopped(Start(g, r)) || s.phase == Preparing(g, r)))))
  }

  /** The start is neither replaced nor stopped, and nothing it needs fails. */
  predicate Undisturbed(e: Event) {
    !e.CallStart? && !e.CallStop? && !e.PrepareFails? && !e.SpawnThrows?
  }

  lemma NextPursued(s: State, e: Event, g: nat, r: nat)
    requires Pursued(s, g, r) && Undisturbed(e)
    ensures Pursued(Next(s, e), g, r)
  {
    hide Relined, Untimed;
    if c: nat :| c < |s.children| && s.children[c].generation == g && s.children[c].retry == r {
      NextContinues(s, e);
      assert c < |Next(s, e).children| && Next(s, e).children[c].generation == g && Next(s, e).children[c].retry == r;
    } else if s.phase.Preparing? && e.Spawn? {
      assert Next(s, e).children[|s.children|].generation == g && Next(s, e).children[|s.children|].retry == r;
    }
  }

  lemma RunOneMore(events: seq<Event>, e: Event)
    ensures Run(events + [e]) == Next(Run(events), e)
  {
    hide Next;
    assert (events + [e])[..|events|] == events;
  }

  ghost predicate HasSpawned(s: State, g: nat, r: nat) {
    exists c: nat :: c < |s.children| && s.children[c].generation == g && s.children[c].retry == r
  }

  lemma FourSteps(s: State, g: nat, r: nat)
    requires Pursued(s, g, r)
    ensures HasSpawned(Next(Next(Next(Next(s, TimerFires), Begin), Resume), Spawn(true)), g, r)
  {
    var a := Next(s, TimerFires);
    var b := Next(a, Begin);
    var c := Next(b, Resume);
    var d := Next(c, Spawn(true));
    if HasSpawned(s, g, r) {
      var i: nat :| i < |s.children| && s.children[i].generation == g && s.children[i].retry == r;
      NextContinues(s, TimerFires);
      NextContinues(a, Begin);
      NextContinues(b, Resume);
      NextContinues(c, Spawn(true));
      hide Next;
      assert d.children[i].generation == g && d.children[i].retry == r;
    } else {
      hide Relined, Untimed;
      assert c.phase == Preparing(g, r) && c.current == Some(g);
      assert d.children[|c.children|].generation == g && d.children[|c.children|].retry == r;
    }
  }

  lemma RunFour(events: seq<Event>, a: Event, b: Event, c: Event, d: Event)
    ensures Run(events + [a, b, c, d]) == Next(Next(Next(Next(Run(events), a), b), c), d)
  {
    RunOneMore(events, a);
    RunOneMore(events + [a], b);
    RunOneMore(events + [a] + [b], c);
    RunOneMore(events + [a] + [b] + [c], d);
    assert events + [a, b, c, d] == events + [a] + [b] + [c] + [d];
    hide Run, Next;
  }

  lemma {:induction false} RunPursued(events: seq<Event>, after: seq<Event>, g: nat, r: nat)
    requires Pursued(Run(events), g, r) && forall e | e in after :: Undisturbed(e)
    ensures Pursued(Run(events + after), g, r)
    decreases |after|
  {
    hide Pursued, Next, Run;
    if |after| == 0 {
      assert events + after == events;
    } else {
      var front, e := after[..|after| - 1], after[|after| - 1];
      RunPursued(events, front, g, r);
      RunOneMore(events + front, e);
      assert events + after == events + front + [e];
      NextPursued(Run(events + front), e, g, r);
    }
  }

  lemma ReportPursues(s: State, c: nat)
    requires OwnerInv(s) && RetryInv(s) && QueueOfCurrent(s)
    requires c < |s.children| && s.tracked == Some(c) && s.current == Some(s.children[c].generation)
    requires s.children[c].ran && !s.children[c].alive && s.children[c].failed && !s.children[c].reported
    requires s.children[c].retry < 3
    ensures Pursued(Next(s, Report(c)), s.children[c].generation, s.children[c].retry + 1)
  {
    assert ChildOk(s, c);
    hide RetryInv, Relined;
  }

  /**
   * When the tracked process of the current start has run and failed with a retry left, its report leads to the next
   * attempt: whatever else happens, as long as no start or stop is called and nothing the attempt needs fails, the
   * timer, the queue and the spawn bring it about.
   */
  lemma {:induction false} FailuresAreRetried(before: seq<Event>, c: nat, after: seq<Event>)
    requires var s := Run(before);
             && c < |s.children| && s.tracked == Some(c) && s.current == Some(s.children[c].generation)
             && s.children[c].ran && !s.children[c].alive && s.children[c].failed && !s.children[c].reported
             && s.children[c].retry < 3
    requires forall e | e in after :: Undisturbed(e)
    ensures var child := Run(before).children[c];
            HasSpawned(Run(before + [Report(c)] + after + [TimerFires, Begin, Resume, Spawn(true)]), child.generation, child.retry + 1)
  {
    hide Run, OwnerInv, RetryInv, QueueOfCurrent, Pursued, Next, HasSpawned;
    var child := Run(before).children[c];
    RunOwner(before);
    RunRetry(before);
    RunCurrent(before);
    ReportPursues(Run(before), c);
    RunOneMore(before, Report(c));
    RunPursued(before + [Report(c)], after, child.generation, child.retry + 1);
    FourSteps(Run(before + [Report(c)] + after), child.generation, child.retry + 1);
    RunFour(before + [Report(c)] + after, TimerFires, Begin, Resume, Spawn(true));
  }

  lemma StopFromRest(s: State, c: nat, failed: bool)
    requires OwnerInv(s) && s.phase.Idle? && s.queue == []
    requires s.tracked.Some? ==> s.tracked == Some(c) && IsAlive(s, c) && !s.children[c].reported
    requires s.tracked.None? ==> c == 0
    ensures var t := Next(Next(Next(Next(Next(s, CallStop), Begin), Die(c, failed)), Report(c)), Resume);
            && |s.stops| in t.finished && t.tracked.None? && t.timer.None? && t.current.None? && t.phase.Idle?
            && forall d: nat :: !IsAlive(t, d)
  {
    hide Relined, Untimed;
    var a := Next(s, CallStop);
    var b := Next(a, Begin);
    assert a.queue == [Stop(|s.stops|)];
    assert b.tracked.None? && b.timer.None? && b.current.None? && b.queue == [];
    var d := Next(b, Die(c, failed));
    var e := Next(d, Report(c));
    forall i: nat ensures !IsAlive(Next(e, Resume), i) {
      assert IsAlive(s, i) ==> s.tracked == Some(i);
    }
  }

  /** A stop of a list at rest ends its process and resolves, once the process has reported its exit. */
  lemma {:induction false} StopsResolve(before: seq<Event>, failed: bool)
    requires var s := Run(before); s.phase.Idle? && s.queue == []
    ensures var s := Run(before);
            var c := if s.tracked.Some? then s.tracked.value else 0;
            var t := Next(Next(Next(Next(Next(s, CallStop), Begin), Die(c, failed)), Report(c)), Resume);
            (s.tracked.Some? ==> IsAlive(s, c) && !s.children[c].reported) ==>
              && |s.stops| in t.finished && t.tracked.None? && t.timer.None? && t.current.None? && t.phase.Idle?
              && forall d: nat :: !IsAlive(t, d)
  {
    RunOwner(before);
    hide Run, Relined, Untimed;
    var s := Run(before);
    var c := if s.tracked.Some? then s.tracked.value else 0;
    if s.tracked.Some? ==> IsAlive(s, c) && !s.children[c].reported {
      StopFromRest(s, c, failed);
    }
  }

  /** A start of a list at rest is spawned under the same conditions. */
  lemma {:induction false} StartsAreSpawned(before: seq<Event>, after: seq<Event>)
    requires var s := Run(before); s.phase.Idle? && s.queue == [] && s.tracked.None? && s.timer.None?
    requires forall e | e in after :: Undisturbed(e)
    ensures HasSpawned(Run(before + [CallStart] + after + [TimerFires, Begin, Resume, Spawn(true)]), |Run(before).lineage|, 0)
  {
    var g := |Run(before).lineage|;
    RunOneMore(before, CallStart);
    hide Run;
    assert Pursued(Run(before + [CallStart]), g, 0);
    hide Pursued, Next, HasSpawned;
    RunPursued(before + [CallStart], after, g, 0);
    FourSteps(Run(before + [CallStart] + after), g, 0);
    RunFour(before + [CallStart] + after, TimerFires, Begin, Resume, Spawn(true));
  }
}
