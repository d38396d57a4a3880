/**
 * Maintenance windows: durable activation jobs whose completion rewrites the schedule they came from.
 * Clock ticks, container labels, failures and crashes may come between any two steps of a job; edits
 * take the configuration lock a job holds.
 */
module MaintenanceSchedule {
  import opened Wrappers

  datatype Row = Row(active: bool, pending: bool, start: Option<int>, end: Option<int>, enabled: bool, deleted: bool)

  // ---------- The schedule ----------

  function DesiredState(h: Row, now: int): bool {
    if h.start.Some? then now >= h.start.value && (h.end.None? || now < h.end.value)
    else h.active && (h.end.None? || now < h.end.value)
  }

  function CompletedSchedule(h: Row, now: int): Row {
    var done := h.(pending := false);
    if h.active && h.end.None? then done.(start := None)
    else if !h.active && h.end.Some? && now >= h.end.value then done.(start := None, end := None)
    else done
  }

  ghost predicate SameDecisions(h: Row, g: Row, from: int) {
    forall t :: t >= from ==> DesiredState(h, t) == DesiredState(g, t)
  }

  /**
   * Completing a schedule leaves the decision at every later moment as it was, except for a row already
   * marked active whose open-ended window has not begun: that window would begin at once.
   */
  lemma CompletionPreservesDecisions(h: Row, now: int)
    ensures SameDecisions(CompletedSchedule(h, now), h, now)
        <==> !(h.active && h.end.None? && h.start.Some? && h.start.value > now)
  {
    if h.active && h.end.None? && h.start.Some? && h.start.value > now {
      assert DesiredState(CompletedSchedule(h, now), now) != DesiredState(h, now);
    }
  }

  /** In particular when the active flag was the desired state at some earlier moment. */
  lemma DecidedRowsComplete(h: Row, at: int, now: int)
    requires at <= now && h.active == DesiredState(h, at)
    ensures SameDecisions(CompletedSchedule(h, now), h, now)
  {
    CompletionPreservesDecisions(h, now);
  }

  /** A row is wanted exactly from its start, or by its flag if it has none, and never at or after its end. */
  lemma WantedWithinItsWindow(h: Row, t: int)
    ensures h.end.Some? && t >= h.end.value ==> !DesiredState(h, t)
    ensures h.start.Some? && t < h.start.value ==> !DesiredState(h, t)
    ensures (h.end.Some? ==> t < h.end.value) && (h.start.Some? ==> h.start.value <= t) ==>
              (DesiredState(h, t) <==> h.start.Some? || h.active)
  {
  }

  /** A completed schedule keeps only what is still to come: no end that has passed, no open-ended start that has. */
  lemma CompletionKeepsWhatIsToCome(h: Row, now: int)
    requires h.active == DesiredState(h, now)
    ensures var done := CompletedSchedule(h, now);
            && !done.pending && done.active == h.active && done.enabled == h.enabled && done.deleted == h.deleted
            && (done.end.Some? ==> done.end == h.end && now < h.end.value)
            && (done.start.Some? ==> done.start == h.start && (done.end.None? ==> now < h.start.value))
            && (h.end.Some? && now < h.end.value ==> done.start == h.start && done.end == h.end)
            && (h.start.Some? && now < h.start.value && (h.end.Some? ==> now < h.end.value) ==> done.start == h.start)
  {
  }

  // ---------- What Nginx shows ----------

  /** The mode a rendering at this moment installs: the flag, or a bounded window that is open. */
  function Rendered(h: Row, now: int): bool {
    h.active || (h.start.Some? && h.end.Some? && h.start.value <= now < h.end.value)
  }

  /** A bounded window is open that the row is not marked active for. */
  predicate UnmarkedWindow(h: Row, now: int) {
    !h.active && h.start.Some? && h.end.Some? && h.start.value <= now < h.end.value
  }

  /** The maintenance branch of the renderer. */
  method RenderMode(h: Row, now: int) returns (mode: bool)
    ensures mode == Rendered(h, now)
  {
    mode := false;
    if h.active {
      mode := true;
    } else if h.start.Some? && h.end.Some? {
      if !(now < h.start.value) && now < h.end.value {
        mode := true;
      }
    }
  }

  // ---------- Activation jobs ----------

  /**
   * A job holds the configuration lock from its claim to its end. `at` is when it was claimed,
   * `renderedAt` when its file was rendered; `clean` is history: no container label changed the active
   * flag between claiming and staging.
   */
  datatype Job =
    | NoJob
    | Claimed(at: int, clean: bool)
    | Staged(host: Row, at: int, clean: bool, renderedAt: int)
    | Activated(host: Row, at: int, clean: bool, renderedAt: int)

  datatype State = State(
    row: Row,
    now: int,
    job: Job,
    installed: Option<bool>,   // the mode Nginx shows; None while a container update is still to be configured
    edited: Row)               // history: the row as the last edit or label left it

  datatype Event =
    | Tick(ms: nat)
    | Edit(active: bool, start: Option<int>, end: Option<int>, enabled: bool, deleted: bool)
    | Label(marks: Option<bool>)   // a container starts: takes no lock and leaves the dates alone
    | Disable                      // a container stops: takes no lock either
    | Configure                    // any other rendering and activation of the host
    | Claim
    | StageHost(ok: bool)
    | Reload(ok: bool)
    | Finish(ok: bool)
    | Crash(loaded: bool)          // Nginx may come up again with the staged file

  function ClaimStep(s: State): State {
    var h := s.row;
    var active := DesiredState(h, s.now);
    if !s.job.NoJob? || h.deleted || (!h.pending && active == h.active) then s
    else if h.enabled then s.(row := h.(active := active, pending := true), job := Claimed(s.now, true))
    else s.(row := CompletedSchedule(h.(active := active), s.now))
  }

  predicate Matches(h: Row, staged: Row) {
    !h.deleted && h.active == staged.active && h.start == staged.start && h.end == staged.end
  }

  /** A change that arrived meanwhile owns its schedule: the job then completes nothing. */
  function FinishStep(s: State, ok: bool): State {
    if !s.job.Activated? then s
    else if ok && Matches(s.row, s.job.host) then s.(job := NoJob, row := CompletedSchedule(s.row, s.now))
    else s.(job := NoJob)
  }

  /** Edits, imports and restored revisions wait for the configuration lock, and activate what they wrote. */
  function EditStep(s: State, e: Event): State
    requires e.Edit?
  {
    if !s.job.NoJob? then s
    else
      var row := Row(e.active, s.row.pending, e.start, e.end, e.enabled, e.deleted);
      s.(row := row, installed := Some(Rendered(row, s.now)), edited := row)
  }

  function LabelStep(s: State, row: Row): State {
    if s.row.deleted then s
    else
      var job := if s.job.Claimed? then Claimed(s.job.at, s.job.clean && row.active == s.row.active) else s.job;
      s.(row := row, job := job, installed := None, edited := row)
  }

  function CrashStep(s: State, loaded: bool): State {
    if s.job.Staged? && loaded then s.(job := NoJob, installed := Some(Rendered(s.job.host, s.job.renderedAt)))
    else s.(job := NoJob)
  }

  /** Events that cannot happen in a state leave it unchanged. */
  function Next(s: State, e: Event): State {
    match e
    case Tick(ms) => s.(now := s.now + ms)
    case Edit(_, _, _, _, _) => EditStep(s, e)
    case Label(marks) => LabelStep(s, s.row.(active := if marks.Some? then marks.value else s.row.active, enabled := true))
    case Disable => LabelStep(s, s.row.(enabled := false))
    case Configure => if s.job.NoJob? then s.(installed := Some(Rendered(s.row, s.now))) else s
    case Claim => ClaimStep(s)
    case StageHost(ok) =>
      if !s.job.Claimed? then s else s.(job := if ok then Staged(s.row, s.job.at, s.job.clean, s.now) else NoJob)
    case Reload(ok) =>
      if !s.job.Staged? then s
      else if ok then
        s.(job := Activated(s.job.host, s.job.at, s.job.clean, s.job.renderedAt),
           installed := Some(Rendered(s.job.host, s.job.renderedAt)))
      else s.(job := NoJob)
    case Finish(ok) => FinishStep(s, ok)
    case Crash(loaded) => CrashStep(s, loaded)
  }

  function Init(row: Row, now: int): State {
    State(row, now, NoJob, Some(row.active), row)
  }

  function Run(row: Row, now: int, events: seq<Event>): State
    decreases |events|
  {
    if |events| == 0 then Init(row, now) else Next(Run(row, now, events[..|events| - 1]), events[|events| - 1])
  }

  // ---------- Pending jobs ----------

  /** Only an activation that completed, or a disabled host with nothing to activate, clears the pending flag. */
  lemma PendingUntilCompleted(s: State, e: Event)
    requires s.row.pending && !Next(s, e).row.pending
    ensures (e == Finish(true) && s.job.Activated? && Matches(s.row, s.job.host)) || (e == Claim && !s.row.enabled)
  {
  }

  ghost predicate JobInv(s: State) {
    && (!s.job.NoJob? ==> s.row.pending)
    && (s.job.Claimed? ==> s.job.at <= s.now && (s.job.clean ==> s.row.active == DesiredState(s.row, s.job.at)))
    && (s.job.Staged? || s.job.Activated? ==>
          && s.job.at <= s.job.renderedAt <= s.now
          && (s.job.clean ==> s.job.host.active == DesiredState(s.job.host, s.job.at)))
    && (s.job.Activated? && s.installed.Some? ==> s.installed.value == Rendered(s.job.host, s.job.renderedAt))
    && (s.row.enabled && !s.row.pending && s.installed == Some(false) ==> !s.row.active)
  }

  lemma NextJob(s: State, e: Event)
    requires JobInv(s)
    ensures JobInv(Next(s, e))
  {
  }

  lemma {:induction false} RunJob(row: Row, now: int, events: seq<Event>)
    ensures JobInv(Run(row, now, events))
    decreases |events|
  {
    if |events| > 0 {
      RunJob(row, now, events[..|events| - 1]);
      hide JobInv, Next;
      NextJob(Run(row, now, events[..|events| - 1]), events[|events| - 1]);
    }
  }

  // ---------- The service ----------

  /** One host's row and the activation in progress. */
  class Activation {
    var row: Row
    var now: int
    var job: Job
    var installed: Option<bool>
    ghost var edited: Row

    ghost function View(): State
      reads this
    {
      State(row, now, job, installed, edited)
    }

    constructor (r: Row, at: int)
      ensures View() == Init(r, at)
    {
      row, now, job, installed, edited := r, at, NoJob, Some(r.active), r;
    }

    /** Persist the job before any file changes. */
    method ClaimMaintenance() returns (claimed: bool)
      requires job.NoJob?
      modifies this
      ensures View() == Next(old(View()), Claim) && (claimed <==> job.Claimed?)
    {
      claimed := false;
      if row.deleted {
        return;
      }
      var active := DesiredState(row, now);
      if !row.pending && active == row.active {
        return;
      }
      var patched := row.(active := active, pending := row.enabled);
      if !row.enabled {
        patched := CompletedSchedule(patched, now);
      }
      claimed := row.enabled;
      row := patched;
      if claimed {
        job := Claimed(now, true);
      }
    }

    method FinishMaintenance(ok: bool)
      requires job.Activated?
      modifies this
      ensures View() == Next(old(View()), Finish(ok))
    {
      var staged := job.host;
      job := NoJob;
      if !ok || row.deleted || row.active != staged.active || row.start != staged.start || row.end != staged.end {
        return;
      }
      row := CompletedSchedule(row, now);
    }
  }
}
