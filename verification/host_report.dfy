/** The uptime report of one host, from rows and an observation that may be read at different moments. */
module HostReport {
  import opened Wrappers
  import opened Uptime

  /** What the report says about millisecond t: recorded rows, extended by the current observation. */
  function ShownAt(h: seq<Entry>, enabled: bool, now: int, t: int): Status {
    if StatusAt(h, t) != Unknown then StatusAt(h, t)
    else if enabled && Latest(h).Some? && Latest(h).value.checkedAt <= t < Min(now, ExpiresAt(Latest(h).value)) then
      Latest(h).value.state
    else Unknown
  }

  function CountShown(h: seq<Entry>, enabled: bool, now: int, state: Status, lo: int, hi: int): nat
    decreases hi - lo
  {
    if hi <= lo then 0
    else CountShown(h, enabled, now, state, lo, hi - 1) + if ShownAt(h, enabled, now, hi - 1) == state then 1 else 0
  }

  /** The current observation's contribution to [lo, hi). */
  function Extension(o: Option<Observation>, enabled: bool, now: int, state: Status, lo: int, hi: int): nat {
    if o.Some? && enabled && o.value.state == state && state != Unknown then
      Overlap(o.value.checkedAt, Min(now, ExpiresAt(o.value)), lo, hi)
    else 0
  }

  lemma {:induction false} ShownSplits(h: seq<Entry>, enabled: bool, now: int, state: Status, lo: int, hi: int)
    requires state != Unknown && (Latest(h).Some? ==> Bounded(h, Latest(h).value.checkedAt))
    ensures CountShown(h, enabled, now, state, lo, hi)
         == CountMs(h, state, lo, hi) + Extension(Latest(h), enabled, now, state, lo, hi)
    decreases hi - lo
  {
    if lo < hi {
      ShownSplits(h, enabled, now, state, lo, hi - 1);
      if StatusAt(h, hi - 1) != Unknown {
        CreditedBefore(h, hi - 1);
      }
    }
  }

  lemma {:induction false} ShownTotals(h: seq<Entry>, enabled: bool, now: int, lo: int, hi: int)
    ensures CountShown(h, enabled, now, Up, lo, hi) + CountShown(h, enabled, now, Down, lo, hi)
            + CountShown(h, enabled, now, Unknown, lo, hi) == Max(0, hi - lo)
    decreases hi - lo
  {
    if lo < hi { ShownTotals(h, enabled, now, lo, hi - 1); }
  }

  /** Nothing is shown as up or down after now. */
  lemma {:induction false} ShownFuture(h: seq<Entry>, enabled: bool, now: int, state: Status, lo: int, hi: int)
    requires state != Unknown && Bounded(h, now) && now <= lo
    ensures CountShown(h, enabled, now, state, lo, hi) == 0
    decreases hi - lo
  {
    if lo < hi {
      ShownFuture(h, enabled, now, state, lo, hi - 1);
      if StatusAt(h, hi - 1) != Unknown { CreditedBefore(h, hi - 1); }
    }
  }

  lemma {:induction false} ShownConcat(h: seq<Entry>, enabled: bool, now: int, state: Status, lo: int, mid: int, hi: int)
    requires lo <= mid <= hi
    ensures CountShown(h, enabled, now, state, lo, hi)
         == CountShown(h, enabled, now, state, lo, mid) + CountShown(h, enabled, now, state, mid, hi)
    decreases hi - mid
  {
    if mid < hi { ShownConcat(h, enabled, now, state, lo, mid, hi - 1); }
  }

  datatype DayReport = DayReport(day: int, upMs: nat, downMs: nat, unknownMs: nat, checks: nat)

  function Reported(daily: map<int, Daily>, o: Option<Observation>, enabled: bool, now: int, day: int): DayReport {
    var row := RowAt(daily, day);
    var date := day * DAY_MS;
    var up := row.upMs + Extension(o, enabled, now, Up, date, date + DAY_MS);
    var down := row.downMs + Extension(o, enabled, now, Down, date, date + DAY_MS);
    DayReport(day, up, down, Max(0, Max(0, Min(DAY_MS, now - date)) - (up + down)), row.checks)
  }

  /**
   * With monotone check times none of which lies in the future, a day's report partitions its elapsed
   * milliseconds into up, down and unknown; the clamp on the unknown part never cuts anything off.
   */
  lemma ReportPartitionsTheDay(h: seq<Entry>, enabled: bool, now: int, day: int)
    requires Monotone(h) && Bounded(h, now) && day * DAY_MS <= now
    ensures var date := day * DAY_MS;
            var elapsed := Min(DAY_MS, now - date);
            var r := Reported(RollupOf(h).daily, RollupOf(h).observation, enabled, now, day);
            && r.upMs == CountShown(h, enabled, now, Up, date, date + elapsed)
            && r.downMs == CountShown(h, enabled, now, Down, date, date + elapsed)
            && r.unknownMs == CountShown(h, enabled, now, Unknown, date, date + elapsed)
            && r.upMs + r.downMs + r.unknownMs == elapsed
            && r.checks == CountChecks(h, date, date + DAY_MS)
  {
    RollupCountsChecks(h, day);
    hide CountChecks;
    hide RollupOf, CountShown, CountMs, Monotone, Bounded, Latest;
    var date := day * DAY_MS;
    var elapsed := Min(DAY_MS, now - date);
    if Latest(h).Some? { LatestIsLast(h); }
    RollupObservation(h);
    RollupCountsMilliseconds(h, day, Up);
    RollupCountsMilliseconds(h, day, Down);
    ShownSplits(h, enabled, now, Up, date, date + DAY_MS);
    ShownSplits(h, enabled, now, Down, date, date + DAY_MS);
    ShownConcat(h, enabled, now, Up, date, date + elapsed, date + DAY_MS);
    ShownConcat(h, enabled, now, Down, date, date + elapsed, date + DAY_MS);
    if elapsed < DAY_MS {
      ShownFuture(h, enabled, now, Up, date + elapsed, date + DAY_MS);
      ShownFuture(h, enabled, now, Down, date + elapsed, date + DAY_MS);
    }
    ShownTotals(h, enabled, now, date, date + elapsed);
  }

  /** With the report's clock behind the last check, the clamp is needed: credits exceed the elapsed time. */
  lemma {:induction false} ClampNeededWhenClockLags()
    ensures var h := [Checked(Observation(0, Up, 60)), Checked(Observation(30_000, Up, 60))];
            var r := Reported(RollupOf(h).daily, RollupOf(h).observation, true, 10_000, 0);
            Monotone(h) && r.upMs == 30_000 && Min(DAY_MS, 10_000) < r.upMs && r.unknownMs == 0
  {
    var first := [Checked(Observation(0, Up, 60))];
    var h := [Checked(Observation(0, Up, 60)), Checked(Observation(30_000, Up, 60))];
    assert h[..1] == first && first[..0] == [];
    assert RollupOf(first) == Recorded(RollupOf([]), Observation(0, Up, 60));
    CreditDaysShares(RollupOf(first).daily, Up, 0, 30_000, 0, Up);
    CreditDaysShares(RollupOf(first).daily, Up, 0, 30_000, 0, Down);
  }

  // ---------- Reports read at two moments ----------

  /**
   * A report reads the daily rows and the observation in separate queries, so checks may be recorded in
   * between: it combines the rows after h[..a] with the observation after h[..b].
   */
  function TornReport(h: seq<Entry>, a: nat, b: nat, enabled: bool, now: int, day: int): DayReport
    requires a <= |h| && b <= |h|
  {
    Reported(RollupOf(h[..a]).daily, Latest(h[..b]), enabled, now, day)
  }

  /** Each part counts the milliseconds of the elapsed part of the day that a history shows in that status. */
  ghost predicate Exact(r: DayReport, h: seq<Entry>, enabled: bool, now: int) {
    var date := r.day * DAY_MS;
    var elapsed := Min(DAY_MS, now - date);
    && r.upMs == CountShown(h, enabled, now, Up, date, date + elapsed)
    && r.downMs == CountShown(h, enabled, now, Down, date, date + elapsed)
    && r.unknownMs == CountShown(h, enabled, now, Unknown, date, date + elapsed)
  }

  /** Check n closes an up or down interval that meets [lo, hi). */
  predicate ClosesInto(h: seq<Entry>, n: nat, lo: int, hi: int)
    requires n < |h|
  {
    var p := Latest(h[..n]);
    && h[n].Checked? && p.Some? && Accepts(p, h[n].observation) && p.value.state != Unknown
    && Overlap(p.value.checkedAt, Min(h[n].observation.checkedAt, ExpiresAt(p.value)), lo, hi) > 0
  }

  ghost predicate NoneCloses(h: seq<Entry>, from: nat, to: nat, lo: int, hi: int)
    requires from <= to <= |h|
  {
    forall n | from <= n < to :: !ClosesInto(h, n, lo, hi)
  }

  lemma MonotonePrefix(h: seq<Entry>, n: nat)
    requires Monotone(h) && n <= |h|
    ensures Monotone(h[..n])
  {
  }

  /** One more entry adds to the credited time of [lo, hi) exactly when it closes an interval there. */
  lemma CreditStep(h: seq<Entry>, n: nat, lo: int, hi: int)
    requires Monotone(h) && n < |h|
    ensures CountMs(h[..n], Up, lo, hi) <= CountMs(h[..n + 1], Up, lo, hi)
    ensures CountMs(h[..n], Down, lo, hi) <= CountMs(h[..n + 1], Down, lo, hi)
    ensures CountMs(h[..n], Up, lo, hi) == CountMs(h[..n + 1], Up, lo, hi)
            && CountMs(h[..n], Down, lo, hi) == CountMs(h[..n + 1], Down, lo, hi)
            <==> !ClosesInto(h, n, lo, hi)
  {
    assert h[..n + 1] == h[..n] + [h[n]];
    MonotonePrefix(h, n);
    if Latest(h[..n]).Some? { LatestIsLast(h[..n]); }
    if h[n].Checked? && Latest(h[..n]).Some? && Accepts(Latest(h[..n]), h[n].observation) {
      CountCloses(h[..n], h[n].observation, Up, lo, hi);
      CountCloses(h[..n], h[n].observation, Down, lo, hi);
    } else {
      CountSame(h[..n], h[n], Up, lo, hi);
      CountSame(h[..n], h[n], Down, lo, hi);
    }
    hide CountMs, Latest, Monotone, Bounded;
  }

  lemma {:induction false} CreditsGrow(h: seq<Entry>, a: nat, b: nat, lo: int, hi: int)
    requires Monotone(h) && a <= b <= |h|
    ensures CountMs(h[..a], Up, lo, hi) <= CountMs(h[..b], Up, lo, hi)
    ensures CountMs(h[..a], Down, lo, hi) <= CountMs(h[..b], Down, lo, hi)
    ensures CountMs(h[..a], Up, lo, hi) == CountMs(h[..b], Up, lo, hi)
            && CountMs(h[..a], Down, lo, hi) == CountMs(h[..b], Down, lo, hi)
            <==> NoneCloses(h, a, b, lo, hi)
    decreases b - a
  {
    hide CountMs, ClosesInto, Monotone;
    if a < b {
      CreditsGrow(h, a, b - 1, lo, hi);
      CreditStep(h, b - 1, lo, hi);
      assert NoneCloses(h, a, b, lo, hi) <==> NoneCloses(h, a, b - 1, lo, hi) && !ClosesInto(h, b - 1, lo, hi);
    }
  }

  lemma NothingCredited(h: seq<Entry>, n: nat, lo: int, hi: int)
    requires Monotone(h) && n <= |h|
    ensures CountMs(h[..n], Up, lo, hi) == 0 && CountMs(h[..n], Down, lo, hi) == 0 <==> NoneCloses(h, 0, n, lo, hi)
  {
    CreditsGrow(h, 0, n, lo, hi);
    assert h[..0] == [];
    CountZero([], Up, lo, hi, lo);
    CountZero([], Down, lo, hi, lo);
  }

  lemma {:induction false} CountConcat(h: seq<Entry>, state: Status, lo: int, mid: int, hi: int)
    requires lo <= mid <= hi
    ensures CountMs(h, state, lo, hi) == CountMs(h, state, lo, mid) + CountMs(h, state, mid, hi)
    decreases hi - mid
  {
    if mid < hi { CountConcat(h, state, lo, mid, hi - 1); }
  }

  /** Once a check has closed an interval past `now`, later ones close nothing before it. */
  lemma AheadExcludesBehind(h: seq<Entry>, a: nat, b: nat, lo: int, now: int, hi: int)
    requires Monotone(h) && a <= b <= |h| && !NoneCloses(h, 0, a, now, hi)
    ensures NoneCloses(h, a, b, lo, now)
  {
    var k: nat :| k < a && ClosesInto(h, k, now, hi);
    forall n | a <= n < b ensures !ClosesInto(h, n, lo, now) {
      if Latest(h[..n]).Some? {
        PrefixAccepted(h, n);
        assert AcceptedAt(h, k) && h[..n][k] == h[k];
        MonotonePrefix(h, n);
        LatestAfter(h[..n], k);
      }
    }
  }

  /** What a report adds up, part by part. */
  lemma ReportedParts(h: seq<Entry>, a: nat, b: nat, enabled: bool, now: int, day: int, state: Status)
    requires Monotone(h) && a <= |h| && b <= |h| && day * DAY_MS <= now && state != Unknown
    ensures var date := day * DAY_MS;
            var elapsed := Min(DAY_MS, now - date);
            var r := TornReport(h, a, b, enabled, now, day);
            && CreditOf(RowAt(RollupOf(h[..a]).daily, day), state)
               == CountMs(h[..a], state, date, date + elapsed) + CountMs(h[..a], state, date + elapsed, date + DAY_MS)
            && (if state == Up then r.upMs else r.downMs) - CountShown(h[..b], enabled, now, state, date, date + elapsed)
               == CountMs(h[..a], state, date, date + elapsed) + CountMs(h[..a], state, date + elapsed, date + DAY_MS)
                  - CountMs(h[..b], state, date, date + elapsed)
  {
    hide RollupOf, CountShown, CountMs, Monotone, Bounded, Latest;
    var date := day * DAY_MS;
    var elapsed := Min(DAY_MS, now - date);
    MonotonePrefix(h, a);
    MonotonePrefix(h, b);
    if Latest(h[..b]).Some? { LatestIsLast(h[..b]); }
    RollupCountsMilliseconds(h[..a], day, state);
    ShownSplits(h[..b], enabled, now, state, date, date + elapsed);
    CountConcat(h[..a], state, date, date + elapsed, date + DAY_MS);
  }

  /**
   * For any two moments of reading and any clock of the report, it is exact for the observation it read
   * exactly when no check closed an interval of the day that the rows show and it should not, or that it
   * should and the rows do not: past the report's clock, or between the two reads.
   */
  lemma ReportExactIff(h: seq<Entry>, a: nat, b: nat, enabled: bool, now: int, day: int)
    requires Monotone(h) && a <= |h| && b <= |h| && day * DAY_MS <= now
    ensures var date := day * DAY_MS;
            var end, midnight := date + Min(DAY_MS, now - date), date + DAY_MS;
            Exact(TornReport(h, a, b, enabled, now, day), h[..b], enabled, now)
            <==> if a <= b then NoneCloses(h, 0, a, end, midnight) && NoneCloses(h, a, b, date, end)
                 else NoneCloses(h, 0, b, end, midnight) && NoneCloses(h, b, a, date, midnight)
  {
    var date := day * DAY_MS;
    var end, midnight := date + Min(DAY_MS, now - date), date + DAY_MS;
    ExactParts(h, a, b, enabled, now, day);
    hide Exact, TornReport, CountMs, Monotone, Latest, ClosesInto;
    if a <= b { RowsFirst(h, a, b, date, end, midnight); } else { ObservationFirst(h, b, a, date, end, midnight); }
    hide NoneCloses;
  }

  lemma ExactParts(h: seq<Entry>, a: nat, b: nat, enabled: bool, now: int, day: int)
    requires Monotone(h) && a <= |h| && b <= |h| && day * DAY_MS <= now
    ensures var date := day * DAY_MS;
            var end, midnight := date + Min(DAY_MS, now - date), date + DAY_MS;
            Exact(TornReport(h, a, b, enabled, now, day), h[..b], enabled, now)
            <==> CountMs(h[..a], Up, date, end) + CountMs(h[..a], Up, end, midnight) == CountMs(h[..b], Up, date, end)
                 && CountMs(h[..a], Down, date, end) + CountMs(h[..a], Down, end, midnight) == CountMs(h[..b], Down, date, end)
  {
    hide RollupOf, CountShown, CountMs, Monotone, Latest, RowAt;
    var date := day * DAY_MS;
    ReportedParts(h, a, b, enabled, now, day, Up);
    ReportedParts(h, a, b, enabled, now, day, Down);
    ShownTotals(h[..b], enabled, now, date, date + Min(DAY_MS, now - date));
  }

  lemma RowsFirst(h: seq<Entry>, a: nat, b: nat, date: int, end: int, midnight: int)
    requires Monotone(h) && a <= b <= |h| && date <= end <= midnight
    ensures CountMs(h[..a], Up, date, end) + CountMs(h[..a], Up, end, midnight) == CountMs(h[..b], Up, date, end)
            && CountMs(h[..a], Down, date, end) + CountMs(h[..a], Down, end, midnight) == CountMs(h[..b], Down, date, end)
            <==> NoneCloses(h, 0, a, end, midnight) && NoneCloses(h, a, b, date, end)
  {
    NothingCredited(h, a, end, midnight);
    CreditsGrow(h, a, b, date, end);
    if !NoneCloses(h, 0, a, end, midnight) { AheadExcludesBehind(h, a, b, date, end, midnight); }
    hide CountMs, Monotone, NoneCloses;
  }

  lemma ObservationFirst(h: seq<Entry>, b: nat, a: nat, date: int, end: int, midnight: int)
    requires Monotone(h) && b <= a <= |h| && date <= end <= midnight
    ensures CountMs(h[..a], Up, date, end) + CountMs(h[..a], Up, end, midnight) == CountMs(h[..b], Up, date, end)
            && CountMs(h[..a], Down, date, end) + CountMs(h[..a], Down, end, midnight) == CountMs(h[..b], Down, date, end)
            <==> NoneCloses(h, 0, b, end, midnight) && NoneCloses(h, b, a, date, midnight)
  {
    NothingCredited(h, b, end, midnight);
    CreditsGrow(h, b, a, date, midnight);
    CountConcat(h[..a], Up, date, end, midnight);
    CountConcat(h[..a], Down, date, end, midnight);
    CountConcat(h[..b], Up, date, end, midnight);
    CountConcat(h[..b], Down, date, end, midnight);
    hide CountMs, Monotone, NoneCloses;
  }

  /** With a clock that is not behind: exact exactly when nothing closes an interval of the day between the reads. */
  lemma ReportExactIffNothingClosesBetween(h: seq<Entry>, a: nat, b: nat, enabled: bool, now: int, day: int)
    requires Monotone(h) && Bounded(h, now) && a <= |h| && b <= |h| && day * DAY_MS <= now
    ensures Exact(TornReport(h, a, b, enabled, now, day), h[..b], enabled, now)
            <==> NoneCloses(h, Min(a, b), Max(a, b), day * DAY_MS, (day + 1) * DAY_MS)
  {
    var date := day * DAY_MS;
    var end, midnight := date + Min(DAY_MS, now - date), date + DAY_MS;
    ReportExactIff(h, a, b, enabled, now, day);
    hide Exact, TornReport, Latest, Monotone;
    assert forall n: nat | n < |h| :: !ClosesInto(h, n, end, midnight);
    assert forall n: nat | n < |h| :: ClosesInto(h, n, date, midnight) <==> ClosesInto(h, n, date, end);
  }

  /** Rows read first never exceed the day: the clamp does not act, although time may be missing. */
  lemma RowsReadFirstNeverExceed(h: seq<Entry>, a: nat, b: nat, enabled: bool, now: int, day: int)
    requires Monotone(h) && Bounded(h, now) && a <= b <= |h| && day * DAY_MS <= now
    ensures var r := TornReport(h, a, b, enabled, now, day);
            r.upMs + r.downMs + r.unknownMs == Min(DAY_MS, now - day * DAY_MS)
  {
    var date := day * DAY_MS;
    var end, midnight := date + Min(DAY_MS, now - date), date + DAY_MS;
    hide RollupOf, CountShown, CountMs, Monotone, Latest, ClosesInto, Bounded, RowAt;
    NothingAhead(h, now, midnight);
    ReportedParts(h, a, b, enabled, now, day, Up);
    ReportedParts(h, a, b, enabled, now, day, Down);
    ShownTotals(h[..b], enabled, now, date, end);
    CreditsGrow(h, a, b, date, end);
    NothingCredited(h, a, end, midnight);
    assert end < midnight ==> end == now;
    NoneAtMidnight(h, a, midnight);
  }

  /** No interval of a history reaches past the clock of its last check. */
  lemma NothingAhead(h: seq<Entry>, now: int, hi: int)
    requires Bounded(h, now)
    ensures forall n: nat | n < |h| :: !ClosesInto(h, n, now, hi)
  {
    hide Latest;
  }

  lemma NoneAtMidnight(h: seq<Entry>, a: nat, midnight: int)
    requires a <= |h|
    ensures NoneCloses(h, 0, a, midnight, midnight)
  {
    hide Latest;
  }

  /** The observation read first: the interval a check closes in between is counted twice. */
  lemma {:induction false} TornReadExceedsTheDay()
    ensures var h := [Checked(Observation(0, Up, 60)), Checked(Observation(30_000, Up, 60))];
            var r := TornReport(h, 2, 1, true, 30_000, 0);
            Monotone(h) && Bounded(h, 30_000) && r.upMs == 60_000 && r.unknownMs == 0 && Min(DAY_MS, 30_000) < r.upMs
  {
    var first := [Checked(Observation(0, Up, 60))];
    var h := [Checked(Observation(0, Up, 60)), Checked(Observation(30_000, Up, 60))];
    assert h[..1] == first && first[..0] == [] && h[..2] == h;
    assert RollupOf(first) == Recorded(RollupOf([]), Observation(0, Up, 60));
    CreditDaysShares(RollupOf(first).daily, Up, 0, 30_000, 0, Up);
    CreditDaysShares(RollupOf(first).daily, Up, 0, 30_000, 0, Down);
  }

  // ---------- The report ----------

  /** The body of the loop, for the day that begins at `date`. */
  method ReportDay(daily: map<int, Daily>, observation: Option<Observation>, now: int, date: int, enabled: bool)
    returns (report: DayReport)
    requires date % DAY_MS == 0
    ensures report == Reported(daily, observation, enabled, now, date / DAY_MS)
  {
    hide RowAt;
    var day := date / DAY_MS;
    var row := RowAt(daily, day);
    var duration := Max(0, Min(DAY_MS, now - date));
    var up := row.upMs;
    var down := row.downMs;
    if observation.Some? && observation.value.state != Unknown && enabled {
      var o := observation.value;
      var start := Max(date, o.checkedAt);
      var end := Min(Min(now, date + DAY_MS), o.checkedAt + o.intervalSeconds * 1000);
      assert Max(0, end - start) == Overlap(o.checkedAt, Min(now, ExpiresAt(o)), date, date + DAY_MS);
      if end > start {
        if o.state == Up { up := up + (end - start); } else { down := down + (end - start); }
      }
    }
    hide Overlap;
    var known := up + down;
    return DayReport(day, up, down, Max(0, duration - known), row.checks);
  }

  /** The loop over the requested days, on what the two queries have read. */
  method HostDetail(daily: map<int, Daily>, observation: Option<Observation>, now: int, dayCount: nat, enabled: bool)
    returns (report: seq<DayReport>)
    requires dayCount > 0
    ensures |report| == dayCount
    ensures forall k | 0 <= k < dayCount ::
              report[k] == Reported(daily, observation, enabled, now, DayOf(now) - (dayCount - 1) + k)
  {
    hide Reported;
    report := [];
    var today := now / DAY_MS * DAY_MS;
    var first := today - (dayCount - 1) * DAY_MS;
    var date := first;
    while date <= today
      invariant date == first + |report| * DAY_MS
      invariant |report| <= dayCount
      invariant forall k | 0 <= k < |report| ::
                  report[k] == Reported(daily, observation, enabled, now, DayOf(now) - (dayCount - 1) + k)
      decreases today - date
    {
      var one := ReportDay(daily, observation, now, date, enabled);
      report := report + [one];
      date := date + DAY_MS;
    }
  }
}
