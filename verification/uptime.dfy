/** Day-split uptime accounting of one monitored host, against a per-millisecond specification. */
module Uptime {
  import opened Wrappers

  const DAY_MS := 86_400_000

  datatype Status = Up | Down | Unknown

  datatype Observation = Observation(checkedAt: int, state: Status, intervalSeconds: nat)

  /** What happened to a host's monitor, in order. */
  datatype Entry = Checked(observation: Observation) | Reset

  datatype Daily = Daily(upMs: nat, downMs: nat, checks: nat)

  function DayOf(t: int): int {
    t / DAY_MS
  }

  /** Length of the intersection of [a, b) and [lo, hi). */
  function Overlap(a: int, b: int, lo: int, hi: int): nat {
    Max(0, Min(b, hi) - Max(a, lo))
  }

  function RowAt(daily: map<int, Daily>, day: int): Daily {
    if day in daily then daily[day] else Daily(0, 0, 0)
  }

  function CreditOf(row: Daily, state: Status): nat {
    match state
    case Up => row.upMs
    case Down => row.downMs
    case Unknown => 0
  }

  // ---------- Specification: the credited status of every millisecond ----------

  /** The observation row after a history: the latest accepted check since the last reset. */
  function Latest(h: seq<Entry>): Option<Observation>
    decreases |h|
  {
    if |h| == 0 then None
    else
      match h[|h| - 1]
      case Reset => None
      case Checked(o) => if Accepts(Latest(h[..|h| - 1]), o) then Some(o) else Latest(h[..|h| - 1])
  }

  /** A check at or before the stored observation is stale. */
  predicate Accepts(previous: Option<Observation>, o: Observation) {
    previous.None? || previous.value.checkedAt < o.checkedAt
  }

  function ExpiresAt(o: Observation): int {
    o.checkedAt + o.intervalSeconds * 1000
  }

  /** Millisecond t lies in the interval which `next` closes for `o`. */
  predicate Covers(o: Observation, next: Observation, t: int) {
    o.checkedAt <= t < next.checkedAt && t < o.checkedAt + o.intervalSeconds * 1000
  }

  predicate AcceptedAt(h: seq<Entry>, i: nat)
    requires i < |h|
  {
    h[i].Checked? && Accepts(Latest(h[..i]), h[i].observation)
  }

  /**
   * Reference definition: t was up (down) when the latest accepted check at or before t said so, t is
   * still inside that check's interval, and the next accepted check after t closed the interval
   * without a reset in between.
   */
  ghost predicate WasIn(h: seq<Entry>, state: Status, t: int) {
    exists i, j :: 0 <= i < j < |h| && Closes(h, i, j) && h[i].observation.state == state
                   && Covers(h[i].observation, h[j].observation, t)
  }

  /** Checks i and j are accepted, and everything between them is a rejected check. */
  ghost predicate Closes(h: seq<Entry>, i: nat, j: nat)
    requires i < j < |h|
  {
    && AcceptedAt(h, i) && AcceptedAt(h, j)
    && forall k | i < k < j :: h[k].Checked? && !AcceptedAt(h, k)
  }

  /** Check times never go backwards. */
  ghost predicate Monotone(h: seq<Entry>) {
    forall i, j | 0 <= i < j < |h| && h[i].Checked? && h[j].Checked? :: h[i].observation.checkedAt <= h[j].observation.checkedAt
  }

  /** The same status computed along the history. */
  function StatusAt(h: seq<Entry>, t: int): Status
    decreases |h|
  {
    if |h| == 0 then Unknown
    else
      var front, last := h[..|h| - 1], h[|h| - 1];
      var previous := Latest(front);
      if last.Checked? && Accepts(previous, last.observation) && previous.Some? && Covers(previous.value, last.observation, t)
      then previous.value.state
      else StatusAt(front, t)
  }

  function CountMs(h: seq<Entry>, state: Status, lo: int, hi: int): nat
    decreases hi - lo
  {
    if hi <= lo then 0 else CountMs(h, state, lo, hi - 1) + if StatusAt(h, hi - 1) == state then 1 else 0
  }

  // ---------- The two definitions agree ----------

  /** i is the accepted check that is still the stored observation. */
  ghost predicate StoredAt(h: seq<Entry>, i: nat) {
    && i < |h| && AcceptedAt(h, i)
    && forall k | i < k < |h| :: h[k].Checked? && !AcceptedAt(h, k)
  }

  lemma PrefixAccepted(h: seq<Entry>, n: nat)
    requires n <= |h|
    ensures forall k | 0 <= k < n :: AcceptedAt(h[..n], k) == AcceptedAt(h, k) && h[..n][k] == h[k]
  {
    forall k | 0 <= k < n ensures AcceptedAt(h[..n], k) == AcceptedAt(h, k) {
      assert h[..n][..k] == h[..k];
    }
  }

  lemma {:induction false} LatestIs(h: seq<Entry>) returns (i: nat)
    requires Latest(h).Some?
    ensures StoredAt(h, i) && h[i].observation == Latest(h).value
    decreases |h|
  {
    var front := h[..|h| - 1];
    PrefixAccepted(h, |h| - 1);
    if AcceptedAt(h, |h| - 1) {
      i := |h| - 1;
    } else {
      i := LatestIs(front);
    }
  }

  /** Conversely, an accepted check followed by rejected checks only is still the stored observation. */
  lemma {:induction false} LatestStays(h: seq<Entry>, i: nat)
    requires StoredAt(h, i)
    ensures Latest(h) == Some(h[i].observation)
    decreases |h|
  {
    var front := h[..|h| - 1];
    PrefixAccepted(h, |h| - 1);
    if i < |h| - 1 {
      LatestStays(front, i);
      assert !AcceptedAt(h, |h| - 1);
    }
  }

  lemma {:induction false} CreditedBefore(h: seq<Entry>, t: int)
    requires StatusAt(h, t) != Unknown
    ensures exists j :: 0 <= j < |h| && h[j].Checked? && t < h[j].observation.checkedAt
    decreases |h|
  {
    var front := h[..|h| - 1];
    if StatusAt(front, t) != Unknown {
      CreditedBefore(front, t);
      var j :| 0 <= j < |front| && front[j].Checked? && t < front[j].observation.checkedAt;
      assert h[j] == front[j];
    } else {
      assert h[|h| - 1].Checked?;
    }
  }

  lemma {:induction false} CoveredStatus(h: seq<Entry>, i: nat, j: nat, t: int)
    requires Monotone(h) && i < j < |h| && Closes(h, i, j) && Covers(h[i].observation, h[j].observation, t)
    ensures StatusAt(h, t) == h[i].observation.state
    decreases |h|
  {
    var front := h[..|h| - 1];
    if j == |h| - 1 {
      ClosedByLast(h, i);
    } else {
      ClosesFront(h, i, j);
      hide Closes, Monotone;
      CoveredStatus(front, i, j, t);
      if Latest(front).Some? {
        LatestAfter(front, j);
      }
      hide AcceptedAt;
    }
  }

  lemma ClosedByLast(h: seq<Entry>, i: nat)
    requires i < |h| - 1 && Closes(h, i, |h| - 1)
    ensures Latest(h[..|h| - 1]) == Some(h[i].observation)
    ensures h[|h| - 1].Checked? && Accepts(Latest(h[..|h| - 1]), h[|h| - 1].observation)
  {
    var front := h[..|h| - 1];
    PrefixAccepted(h, |h| - 1);
    assert StoredAt(front, i);
    LatestStays(front, i);
  }

  lemma ClosesFront(h: seq<Entry>, i: nat, j: nat)
    requires Monotone(h) && i < j < |h| - 1 && Closes(h, i, j)
    ensures var front := h[..|h| - 1];
            Monotone(front) && Closes(front, i, j) && front[i] == h[i] && front[j] == h[j] && AcceptedAt(front, j) && h[j].Checked?
  {
    PrefixAccepted(h, |h| - 1);
  }

  /** Under monotone times the stored observation is at least as late as any accepted check. */
  lemma LatestAfter(h: seq<Entry>, j: nat)
    requires Monotone(h) && j < |h| && AcceptedAt(h, j) && Latest(h).Some?
    ensures h[j].observation.checkedAt <= Latest(h).value.checkedAt
  {
    var i := LatestIs(h);
    assert j <= i;
  }

  lemma {:induction false} StatusImpliesWasIn(h: seq<Entry>, t: int) returns (i: nat, j: nat)
    requires StatusAt(h, t) != Unknown
    ensures i < j < |h| && Closes(h, i, j) && h[i].observation.state == StatusAt(h, t)
    ensures Covers(h[i].observation, h[j].observation, t)
    decreases |h|
  {
    var front, last := h[..|h| - 1], h[|h| - 1];
    var previous := Latest(front);
    if last.Checked? && Accepts(previous, last.observation) && previous.Some? && Covers(previous.value, last.observation, t) {
      i := LatestIs(front);
      j := |h| - 1;
      StoredCloses(h, i);
    } else {
      i, j := StatusImpliesWasIn(front, t);
      ClosesWhole(h, i, j);
      hide Closes, AcceptedAt;
    }
  }

  lemma StoredCloses(h: seq<Entry>, i: nat)
    requires |h| > 0 && StoredAt(h[..|h| - 1], i) && AcceptedAt(h, |h| - 1)
    ensures Closes(h, i, |h| - 1) && h[..|h| - 1][i] == h[i]
  {
    PrefixAccepted(h, |h| - 1);
  }

  lemma ClosesWhole(h: seq<Entry>, i: nat, j: nat)
    requires |h| > 0 && i < j < |h| - 1 && Closes(h[..|h| - 1], i, j)
    ensures Closes(h, i, j) && h[..|h| - 1][i] == h[i] && h[..|h| - 1][j] == h[j]
  {
    PrefixAccepted(h, |h| - 1);
  }

  /** With monotone check times, the running computation is the reference definition. */
  lemma StatusIsReference(h: seq<Entry>, state: Status, t: int)
    requires Monotone(h) && state != Unknown
    ensures StatusAt(h, t) == state <==> WasIn(h, state, t)
  {
    if WasIn(h, state, t) {
      var i, j :| 0 <= i < j < |h| && Closes(h, i, j) && h[i].observation.state == state
                  && Covers(h[i].observation, h[j].observation, t);
      CoveredStatus(h, i, j, t);
    }
    if StatusAt(h, t) == state { var _, _ := StatusImpliesWasIn(h, t); }
  }

  // ---------- Counting milliseconds ----------

  /** Everything credited so far lies before the latest check. */
  ghost predicate Bounded(h: seq<Entry>, bound: int) {
    forall i | 0 <= i < |h| && h[i].Checked? :: h[i].observation.checkedAt <= bound
  }

  lemma {:induction false} CountZero(h: seq<Entry>, state: Status, lo: int, hi: int, bound: int)
    requires Bounded(h, bound) && bound <= lo && state != Unknown
    ensures CountMs(h, state, lo, hi) == 0
    decreases hi - lo
  {
    if lo < hi {
      CountZero(h, state, lo, hi - 1, bound);
      if StatusAt(h, hi - 1) == state { CreditedBefore(h, hi - 1); }
    }
  }

  /** Closing an interval adds exactly its overlap with [lo, hi). */
  lemma {:induction false} CountCloses(h: seq<Entry>, o: Observation, state: Status, lo: int, hi: int)
    requires Latest(h).Some? && Accepts(Latest(h), o) && state != Unknown
    requires Bounded(h, Latest(h).value.checkedAt)
    ensures var p := Latest(h).value;
            CountMs(h + [Checked(o)], state, lo, hi)
            == CountMs(h, state, lo, hi)
               + if p.state == state then Overlap(p.checkedAt, Min(o.checkedAt, ExpiresAt(p)), lo, hi) else 0
    decreases hi - lo
  {
    if lo < hi {
      CountCloses(h, o, state, lo, hi - 1);
      var next := h + [Checked(o)];
      assert next[..|next| - 1] == h;
      if StatusAt(h, hi - 1) != Unknown {
        CreditedBefore(h, hi - 1);
      }
    }
  }

  lemma {:induction false} CountSame(h: seq<Entry>, e: Entry, state: Status, lo: int, hi: int)
    requires e.Reset? || Latest(h).None? || !Accepts(Latest(h), e.observation)
    ensures CountMs(h + [e], state, lo, hi) == CountMs(h, state, lo, hi)
    decreases hi - lo
  {
    if lo < hi {
      CountSame(h, e, state, lo, hi - 1);
      assert (h + [e])[..|h|] == h;
    }
  }

  // ---------- The rollup ----------

  datatype Rollup = Rollup(daily: map<int, Daily>, observation: Option<Observation>)

  function AddDaily(daily: map<int, Daily>, day: int, up: nat, down: nat, checks: nat): map<int, Daily> {
    var row := RowAt(daily, day);
    daily[day := Daily(row.upMs + up, row.downMs + down, row.checks + checks)]
  }

  /** Split [start, end) at day boundaries and credit each piece to its day. */
  function CreditDays(daily: map<int, Daily>, state: Status, start: int, end: int): map<int, Daily>
    decreases end - start
  {
    if start >= end then daily
    else
      var boundary := Min(end, DayOf(start) * DAY_MS + DAY_MS);
      var piece := boundary - start;
      CreditDays(AddDaily(daily, DayOf(start), if state == Up then piece else 0, if state == Down then piece else 0, 0),
                 state, boundary, end)
  }

  function Recorded(r: Rollup, o: Observation): Rollup {
    if !Accepts(r.observation, o) then r
    else
      var credited :=
        if r.observation.Some? && r.observation.value.state != Unknown then
          var p := r.observation.value;
          CreditDays(r.daily, p.state, p.checkedAt, Min(o.checkedAt, ExpiresAt(p)))
        else r.daily;
      Rollup(AddDaily(credited, DayOf(o.checkedAt), 0, 0, 1), Some(o))
  }

  /** The rollup after a history of checks and resets. */
  function RollupOf(h: seq<Entry>): Rollup
    decreases |h|
  {
    if |h| == 0 then Rollup(map[], None)
    else
      match h[|h| - 1]
      case Checked(o) => Recorded(RollupOf(h[..|h| - 1]), o)
      case Reset => RollupOf(h[..|h| - 1]).(observation := None)
  }

  lemma {:induction false} RollupObservation(h: seq<Entry>)
    ensures RollupOf(h).observation == Latest(h)
    decreases |h|
  {
    if |h| > 0 { RollupObservation(h[..|h| - 1]); }
  }

  /** Splitting loses nothing: each day gets exactly its overlap with the interval. */
  lemma {:induction false} CreditDaysShares(daily: map<int, Daily>, state: Status, start: int, end: int, day: int, s: Status)
    requires s != Unknown
    ensures CreditOf(RowAt(CreditDays(daily, state, start, end), day), s)
         == CreditOf(RowAt(daily, day), s) + if state == s then Overlap(start, end, day * DAY_MS, (day + 1) * DAY_MS) else 0
    ensures RowAt(CreditDays(daily, state, start, end), day).checks == RowAt(daily, day).checks
    decreases end - start
  {
    if start < end {
      var boundary := Min(end, DayOf(start) * DAY_MS + DAY_MS);
      var piece := boundary - start;
      var next := AddDaily(daily, DayOf(start), if state == Up then piece else 0, if state == Down then piece else 0, 0);
      CreditDaysShares(next, state, boundary, end, day, s);
    }
  }

  /** Accepted checks whose moment lies in [lo, hi). */
  function CountChecks(h: seq<Entry>, lo: int, hi: int): nat
    decreases |h|
  {
    if |h| == 0 then 0
    else
      var front, last := h[..|h| - 1], h[|h| - 1];
      CountChecks(front, lo, hi)
      + if last.Checked? && lo <= last.observation.checkedAt < hi
           && (Latest(front).None? || Latest(front).value.checkedAt < last.observation.checkedAt) then 1 else 0
  }

  lemma AddDailyChecks(daily: map<int, Daily>, at: int, up: nat, down: nat, checks: nat, day: int)
    ensures RowAt(AddDaily(daily, at, up, down, checks), day).checks
         == RowAt(daily, day).checks + if at == day then checks else 0
  {
  }

  /** Each day's row counts the checks accepted on that day, whatever their order. */
  lemma {:induction false} RollupCountsChecks(h: seq<Entry>, day: int)
    ensures RowAt(RollupOf(h).daily, day).checks == CountChecks(h, day * DAY_MS, (day + 1) * DAY_MS)
    decreases |h|
  {
    if |h| > 0 {
      var front, last := h[..|h| - 1], h[|h| - 1];
      RollupCountsChecks(front, day);
      RollupObservation(front);
      if last.Checked? && Accepts(Latest(front), last.observation) {
        var o := last.observation;
        if Latest(front).Some? && Latest(front).value.state != Unknown {
          var p := Latest(front).value;
          CreditDaysShares(RollupOf(front).daily, p.state, p.checkedAt, Min(o.checkedAt, ExpiresAt(p)), day, Up);
          AddDailyChecks(CreditDays(RollupOf(front).daily, p.state, p.checkedAt, Min(o.checkedAt, ExpiresAt(p))),
                         DayOf(o.checkedAt), 0, 0, 1, day);
        } else {
          AddDailyChecks(RollupOf(front).daily, DayOf(o.checkedAt), 0, 0, 1, day);
        }
        hide CreditDays, AddDaily, RowAt;
        assert DayOf(o.checkedAt) == day <==> day * DAY_MS <= o.checkedAt < (day + 1) * DAY_MS;
      }
    }
  }

  lemma LatestIsLast(h: seq<Entry>)
    requires Monotone(h) && Latest(h).Some?
    ensures Bounded(h, Latest(h).value.checkedAt)
  {
    var i := LatestIs(h);
    forall k | 0 <= k < |h| && h[k].Checked? ensures h[k].observation.checkedAt <= h[i].observation.checkedAt {
      if k > i {
        PrefixAccepted(h, k);
        LatestStays(h[..k], i);
        assert !AcceptedAt(h, k);
      }
    }
  }

  /**
   * Each day's row holds exactly the milliseconds of that day at which the host was up (down)
   * according to the reference definition.
   */
  lemma {:induction false} RollupCountsMilliseconds(h: seq<Entry>, day: int, state: Status)
    requires Monotone(h) && state != Unknown
    ensures CreditOf(RowAt(RollupOf(h).daily, day), state) == CountMs(h, state, day * DAY_MS, (day + 1) * DAY_MS)
    decreases |h|
  {
    if |h| == 0 {
      CountZero(h, state, day * DAY_MS, (day + 1) * DAY_MS, day * DAY_MS);
    } else {
      var front, last := h[..|h| - 1], h[|h| - 1];
      RollupCountsMilliseconds(front, day, state);
      RollupObservation(front);
      assert h == front + [last];
      if last.Checked? && Accepts(Latest(front), last.observation) && Latest(front).Some? {
        var p := Latest(front).value;
        LatestIsLast(front);
        CountCloses(front, last.observation, state, day * DAY_MS, (day + 1) * DAY_MS);
        CreditDaysShares(RollupOf(front).daily, p.state, p.checkedAt, Min(last.observation.checkedAt, ExpiresAt(p)), day, state);
      } else {
        CountSame(front, last, state, day * DAY_MS, (day + 1) * DAY_MS);
      }
    }
  }
}
