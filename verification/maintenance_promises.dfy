/** What maintenance jobs promise over every run: no stray mode, and no changed decision. */
module MaintenancePromises {
  import opened Wrappers
  import opened MaintenanceSchedule

  // ---------- What Nginx shows, and what is pending ----------

  /** An enabled host shows another mode than its row says, and no job is pending to correct it. */
  predicate Stray(s: State) {
    s.row.enabled && !s.row.deleted && !s.row.pending && s.installed.Some? && s.installed.value != s.row.active
  }

  /**
   * The steps that install an open window the row is not marked for, with no job left: an edit, another
   * rendering of the host, or the completion of a job whose file was rendered in such a window.
   */
  predicate StraysBy(s: State, e: Event) {
    match e
    case Edit(active, start, end, enabled, deleted) =>
      s.job.NoJob? && !s.row.pending && enabled && !deleted && UnmarkedWindow(Row(active, false, start, end, true, false), s.now)
    case Configure =>
      s.job.NoJob? && !s.row.pending && s.row.enabled && !s.row.deleted && UnmarkedWindow(s.row, s.now)
    case Finish(ok) =>
      ok && s.job.Activated? && Matches(s.row, s.job.host) && s.row.enabled && s.installed.Some?
      && UnmarkedWindow(s.job.host, s.job.renderedAt)
    case _ => false
  }

  /** From a reachable state without such a disagreement, a step creates one exactly if it is one of these. */
  lemma NextStray(s: State, e: Event)
    requires JobInv(s) && !Stray(s)
    ensures Stray(Next(s, e)) <==> StraysBy(s, e)
  {
  }

  /**
   * Over every run a poll leaves the host marked exactly as its window says, if no job holds the lock, and takes up
   * a job exactly for an enabled host whose mark changed or whose work is unfinished.
   */
  lemma {:induction false} PollFollowsSchedule(row: Row, now: int, events: seq<Event>)
    ensures var s := Run(row, now, events);
            var wanted := (if s.row.start.Some? then s.row.start.value <= s.now else s.row.active)
                          && (s.row.end.Some? ==> s.now < s.row.end.value);
            var t := Run(row, now, events + [Claim]);
            s.job.NoJob? && !s.row.deleted ==>
              && t.row.active == wanted
              && (t.job.Claimed? <==> s.row.enabled && (s.row.pending || s.row.active != wanted))
              && (t.job.Claimed? ==> t.row == s.row.(active := wanted, pending := true))
              && (!s.row.enabled && (s.row.pending || s.row.active != wanted) ==>
                    t.job.NoJob? && t.row == CompletedSchedule(s.row.(active := wanted), s.now) && !t.row.pending)
  {
    assert (events + [Claim])[..|events|] == events;
    hide Run;
  }

  /** A bounded window opened after one moment and was open at another. */
  predicate OpenedMeanwhile(h: Row, at: int, renderedAt: int) {
    h.start.Some? && h.end.Some? && at < h.start.value <= renderedAt < h.end.value
  }

  /** A job no label has touched does so exactly when it was claimed before its window opened and rendered inside it. */
  lemma StrayingJob(s: State)
    requires JobInv(s) && s.job.Activated? && s.job.clean && Matches(s.row, s.job.host) && s.row.enabled && s.installed.Some?
    ensures StraysBy(s, Finish(true)) <==> OpenedMeanwhile(s.job.host, s.job.at, s.job.renderedAt)
  {
  }

  /** After no prefix of the run a disagreement is left without a job. */
  ghost predicate AlwaysTracked(row: Row, now: int, events: seq<Event>)
    decreases |events|
  {
    !Stray(Run(row, now, events)) && (|events| > 0 ==> AlwaysTracked(row, now, events[..|events| - 1]))
  }

  ghost predicate NeverStrays(row: Row, now: int, events: seq<Event>)
    decreases |events|
  {
    |events| > 0 ==>
      var front := events[..|events| - 1];
      NeverStrays(row, now, front) && !StraysBy(Run(row, now, front), events[|events| - 1])
  }

  /** Over every run with failures, labels and crashes at any point. */
  lemma {:induction false} TrackedIffNeverStrays(row: Row, now: int, events: seq<Event>)
    ensures AlwaysTracked(row, now, events) <==> NeverStrays(row, now, events)
    decreases |events|
  {
    if |events| > 0 {
      var front, e := events[..|events| - 1], events[|events| - 1];
      TrackedIffNeverStrays(row, now, front);
      RunJob(row, now, front);
      assert AlwaysTracked(row, now, front) ==> !Stray(Run(row, now, front));
      hide Stray, StraysBy, JobInv, Next;
      if !Stray(Run(row, now, front)) { NextStray(Run(row, now, front), e); }
    }
  }

  /**
   * In every run without such a step, an enabled host that shows another mode than its row says still
   * has a pending job, so the next poll claims it again.
   */
  lemma {:induction false} UnfinishedWorkIsPending(row: Row, now: int, events: seq<Event>)
    ensures var s := Run(row, now, events);
            NeverStrays(row, now, events) && s.row.enabled && !s.row.deleted && s.installed.Some? && s.installed.value != s.row.active ==>
              s.row.pending && (s.job.NoJob? ==> Next(s, Claim).job.Claimed?)
  {
    TrackedIffNeverStrays(row, now, events);
    assert AlwaysTracked(row, now, events) ==> !Stray(Run(row, now, events));
    hide Run, AlwaysTracked, NeverStrays;
  }

  /** A stray host shows maintenance, and the next poll takes it up exactly if its window is still open. */
  lemma {:induction false} StrayIsTakenUpInItsWindow(row: Row, now: int, events: seq<Event>)
    ensures var s := Run(row, now, events);
            Stray(s) ==> s.installed == Some(true) && !s.row.active
    ensures var s := Run(row, now, events);
            Stray(s) ==> (Next(s, Claim).job.Claimed? <==> DesiredState(s.row, s.now))
  {
    RunJob(row, now, events);
    hide Run;
  }

  /** A window shorter than the poll: the host stays in maintenance after it, with no job. */
  lemma ShortWindowSticks()
    ensures var row := Row(true, false, Some(100), Some(120), true, false);
            var events := [Claim, Tick(1), StageHost(true), Reload(true), Finish(true), Tick(20)];
            var s := Run(row, 99, events);
            && Stray(s) && s.installed == Some(true) && !DesiredState(s.row, s.now) && Next(s, Claim) == s
            && !NeverStrays(row, 99, events)
  {
    var row := Row(true, false, Some(100), Some(120), true, false);
    var events := [Claim, Tick(1), StageHost(true), Reload(true), Finish(true), Tick(20)];
    assert events[..5][..4] == events[..4] && events[..4][..3] == events[..3] && events[..3][..2] == events[..2];
    assert events[..2][..1] == events[..1];
    assert Run(row, 99, events[..1]) == Next(Init(row, 99), Claim);
    assert Run(row, 99, events[..2]) == Next(Run(row, 99, events[..1]), Tick(1));
    assert Run(row, 99, events[..3]) == Next(Run(row, 99, events[..2]), StageHost(true));
    assert Run(row, 99, events[..4]) == Next(Run(row, 99, events[..3]), Reload(true));
    assert Run(row, 99, events[..5]) == Next(Run(row, 99, events[..4]), Finish(true));
    assert StraysBy(Run(row, 99, events[..4]), Finish(true));
    assert !NeverStrays(row, 99, events[..5]);
  }

  // ---------- Decisions ----------

  ghost predicate Faithful(s: State) {
    SameDecisions(s.row, s.edited, s.now)
  }

  /** The one harmful step: completing a row marked active whose open-ended window has not begun. */
  predicate StartsEarly(s: State, e: Event) {
    && e == Finish(true) && s.job.Activated? && Matches(s.row, s.job.host)
    && s.row.active && s.row.end.None? && s.row.start.Some? && s.row.start.value > s.now
  }

  /** A step keeps the decisions of the last edit exactly unless it is the harmful one. */
  lemma NextFaithful(s: State, e: Event)
    requires JobInv(s) && Faithful(s)
    ensures Faithful(Next(s, e)) <==> !StartsEarly(s, e)
  {
    match e
    case Claim =>
      var active := DesiredState(s.row, s.now);
      assert SameDecisions(s.row.(active := active), s.row, s.now);
      DecidedRowsComplete(s.row.(active := active), s.now, s.now);
    case Finish(ok) =>
      if ok && s.job.Activated? && Matches(s.row, s.job.host) {
        CompletionPreservesDecisions(s.row, s.now);
        if StartsEarly(s, e) {
          assert DesiredState(Next(s, e).row, s.now) != DesiredState(s.edited, s.now);
        }
      }
    case _ =>
  }

  /** After every prefix of the run the decisions at all later moments are those of the last edit. */
  ghost predicate AlwaysFaithful(row: Row, now: int, events: seq<Event>)
    decreases |events|
  {
    Faithful(Run(row, now, events)) && (|events| > 0 ==> AlwaysFaithful(row, now, events[..|events| - 1]))
  }

  /** No step of the run is the harmful one. */
  ghost predicate NeverEarly(row: Row, now: int, events: seq<Event>)
    decreases |events|
  {
    |events| > 0 ==>
      var front := events[..|events| - 1];
      NeverEarly(row, now, front) && !StartsEarly(Run(row, now, front), events[|events| - 1])
  }

  /**
   * For every run with labels, failures and crashes: claims, activations and completions never change a
   * decision, exactly unless some completion meets an active row with an open-ended window to come.
   */
  lemma {:induction false} FaithfulIffNeverEarly(row: Row, now: int, events: seq<Event>)
    ensures AlwaysFaithful(row, now, events) <==> NeverEarly(row, now, events)
    decreases |events|
  {
    if |events| > 0 {
      var front, e := events[..|events| - 1], events[|events| - 1];
      var before := Run(row, now, front);
      FaithfulIffNeverEarly(row, now, front);
      RunJob(row, now, front);
      assert AlwaysFaithful(row, now, front) ==> Faithful(before);
      hide Faithful, StartsEarly, JobInv, Next;
      if Faithful(before) { NextFaithful(before, e); }
    }
  }

  /** A job no label has touched completes only what was decided when it was claimed. */
  lemma CleanJobsStartInTime(s: State, e: Event)
    requires JobInv(s) && (s.job.Activated? ==> s.job.clean)
    ensures !StartsEarly(s, e)
  {
  }

  lemma {:induction false} OnlyLabelsSoil(row: Row, now: int, events: seq<Event>)
    requires forall e | e in events :: !e.Label?
    ensures !Run(row, now, events).job.NoJob? ==> Run(row, now, events).job.clean
    decreases |events|
  {
    if |events| > 0 {
      assert events[|events| - 1] in events;
      OnlyLabelsSoil(row, now, events[..|events| - 1]);
    }
  }

  /** With edits under the lock only, every decision of every run is the one the last edit asked for. */
  lemma {:induction false} OnlyEditsDecide(row: Row, now: int, events: seq<Event>)
    requires forall e | e in events :: !e.Label?
    ensures NeverEarly(row, now, events) && AlwaysFaithful(row, now, events)
    decreases |events|
  {
    if |events| > 0 {
      var front, e := events[..|events| - 1], events[|events| - 1];
      OnlyEditsDecide(row, now, front);
      RunJob(row, now, front);
      OnlyLabelsSoil(row, now, front);
      CleanJobsStartInTime(Run(row, now, front), e);
    }
    hide StartsEarly, Run, Faithful;
    FaithfulIffNeverEarly(row, now, events);
  }

  /** A label that sets the active flag again between claim and staging starts a future window at once. */
  lemma LateLabelStartsEarly()
    ensures var row := Row(true, false, Some(100), None, true, false);
            var events := [Claim, Label(Some(true)), StageHost(true), Reload(true), Finish(true)];
            !NeverEarly(row, 0, events) && !AlwaysFaithful(row, 0, events)
  {
    var row := Row(true, false, Some(100), None, true, false);
    var events := [Claim, Label(Some(true)), StageHost(true), Reload(true), Finish(true)];
    assert events[..4][..3] == events[..3] && events[..3][..2] == events[..2] && events[..2][..1] == events[..1];
    assert Run(row, 0, events[..1]) == Next(Init(row, 0), Claim);
    assert Run(row, 0, events[..2]) == Next(Run(row, 0, events[..1]), Label(Some(true)));
    assert Run(row, 0, events[..3]) == Next(Run(row, 0, events[..2]), StageHost(true));
    assert Run(row, 0, events[..4]) == Next(Run(row, 0, events[..3]), Reload(true));
    assert StartsEarly(Run(row, 0, events[..4]), events[4]);
    FaithfulIffNeverEarly(row, 0, events);
  }
}
