/** Recording checks of one host: rollup, incidents and queued deliveries. */
module HostMonitor {
  import opened Wrappers
  import opened Uptime

  datatype Resolution = Recovered | MonitorChanged

  datatype Incident = Incident(
    openedAt: int,
    lastSeenAt: int,
    failureCount: nat,
    resolved: Option<(int, Resolution)>)

  datatype IncidentEvent = IncidentOpened | IncidentResolved

  datatype Target = Target(id: nat, hostIds: set<nat>)
  datatype Queued = Queued(target: nat, incident: nat, event: IncidentEvent, muted: bool, createdAt: int)

  // ---------- Incidents as a function of the history ----------

  /** The first incident without a resolution, as the query `.whereNull("resolved_at").first()` finds it. */
  function FirstOpen(incidents: seq<Incident>): Option<nat>
    decreases |incidents|
  {
    if |incidents| == 0 then None
    else
      var n := |incidents| - 1;
      if FirstOpen(incidents[..n]).Some? then FirstOpen(incidents[..n])
      else if incidents[n].resolved.None? then Some(n) else None
  }

  function AfterCheck(incidents: seq<Incident>, o: Observation): (r: seq<Incident>) {
    var open := FirstOpen(incidents);
    match o.state
    case Down =>
      if open.Some? && open.value < |incidents| then
        var i := incidents[open.value];
        incidents[open.value := i.(lastSeenAt := o.checkedAt, failureCount := i.failureCount + 1)]
      else incidents + [Incident(o.checkedAt, o.checkedAt, 1, None)]
    case Up =>
      if open.Some? && open.value < |incidents| then
        incidents[open.value := incidents[open.value].(resolved := Some((o.checkedAt, Recovered)), lastSeenAt := o.checkedAt)]
      else incidents
    case Unknown => incidents
  }

  function AfterReset(incidents: seq<Incident>, now: int): seq<Incident> {
    seq(|incidents|, i requires 0 <= i < |incidents| =>
      if incidents[i].resolved.None? then incidents[i].(resolved := Some((now, MonitorChanged))) else incidents[i])
  }

  /** A recorded history; resets carry their time. */
  datatype Record = Check(observation: Observation) | MonitorReset(now: int)

  function Entries(h: seq<Record>): (r: seq<Entry>)
    ensures |r| == |h|
    decreases |h|
  {
    if |h| == 0 then []
    else Entries(h[..|h| - 1]) + [match h[|h| - 1] case Check(o) => Checked(o) case MonitorReset(_) => Reset]
  }

  function IncidentsOf(h: seq<Record>): seq<Incident>
    decreases |h|
  {
    if |h| == 0 then []
    else
      var before := IncidentsOf(h[..|h| - 1]);
      match h[|h| - 1]
      case Check(o) => if Accepts(Latest(Entries(h[..|h| - 1])), o) then AfterCheck(before, o) else before
      case MonitorReset(now) => AfterReset(before, now)
  }

  /** Reference: down checks accepted since the current outage began; zero when the host is not down. */
  function OutageChecks(h: seq<Record>): nat
    decreases |h|
  {
    if |h| == 0 then 0
    else
      var before := OutageChecks(h[..|h| - 1]);
      match h[|h| - 1]
      case MonitorReset(_) => 0
      case Check(o) =>
        if !Accepts(Latest(Entries(h[..|h| - 1])), o) then before
        else match o.state case Down => before + 1 case Up => 0 case Unknown => before
  }

  ghost predicate Open(incidents: seq<Incident>, i: nat) {
    i < |incidents| && incidents[i].resolved.None?
  }

  lemma {:induction false} FirstOpenIs(incidents: seq<Incident>)
    ensures FirstOpen(incidents).Some? ==> Open(incidents, FirstOpen(incidents).value)
    ensures FirstOpen(incidents).None? ==> forall i: nat :: !Open(incidents, i)
    decreases |incidents|
  {
    if |incidents| > 0 {
      var front := incidents[..|incidents| - 1];
      FirstOpenIs(front);
      if FirstOpen(incidents).None? {
        forall i: nat ensures !Open(incidents, i) {
          if i < |front| { assert front[i] == incidents[i] && !Open(front, i); }
        }
      }
    }
  }

  /** At most one incident is open, exactly while an outage lasts, and it counts the outage's down checks. */
  lemma {:induction false} OneOpenIncident(h: seq<Record>, i: nat, j: nat)
    ensures Open(IncidentsOf(h), i) && Open(IncidentsOf(h), j) ==> i == j
    ensures Open(IncidentsOf(h), i) ==> IncidentsOf(h)[i].failureCount == OutageChecks(h) > 0
    ensures OutageChecks(h) > 0 ==> FirstOpen(IncidentsOf(h)).Some?
    decreases |h|
  {
    if |h| > 0 {
      var before := IncidentsOf(h[..|h| - 1]);
      FirstOpenIs(before);
      FirstOpenIs(IncidentsOf(h));
      hide FirstOpen, Latest, Entries, Accepts;
      OneOpenIncident(h[..|h| - 1], i, j);
      if FirstOpen(before).Some? {
        OneOpenIncident(h[..|h| - 1], i, FirstOpen(before).value);
        OneOpenIncident(h[..|h| - 1], j, FirstOpen(before).value);
        OneOpenIncident(h[..|h| - 1], FirstOpen(before).value, FirstOpen(before).value);
      }
      if OutageChecks(h) > 0 {
        OpenDuringOutage(h);
      }
    }
  }

  lemma {:induction false} OpenDuringOutage(h: seq<Record>)
    requires |h| > 0 && OutageChecks(h) > 0
    ensures FirstOpen(IncidentsOf(h)).Some?
    decreases |h|
  {
    var front := h[..|h| - 1];
    var before := IncidentsOf(front);
    FirstOpenIs(IncidentsOf(h));
    FirstOpenIs(before);
    if OutageChecks(front) > 0 && |front| > 0 {
      OpenDuringOutage(front);
    }
    var last := h[|h| - 1];
    if last.Check? && Accepts(Latest(Entries(front)), last.observation) && last.observation.state.Down? {
      if FirstOpen(before).Some? {
        assert Open(IncidentsOf(h), FirstOpen(before).value);
      } else {
        assert Open(IncidentsOf(h), |before|);
      }
    }
  }

  // ---------- The monitor object ----------

  function Subscribed(targets: seq<Target>, hostId: nat): seq<Target>
    decreases |targets|
  {
    if |targets| == 0 then []
    else
      var t := targets[|targets| - 1];
      Subscribed(targets[..|targets| - 1], hostId) + if t.hostIds == {} || hostId in t.hostIds then [t] else []
  }

  function Deliveries(targets: seq<Target>, incident: nat, event: IncidentEvent, muted: bool, at: int): seq<Queued> {
    seq(|targets|, i requires 0 <= i < |targets| => Queued(targets[i].id, incident, event, muted, at))
  }

  /** Only opening and recovering announce; unknown, repeated and stale checks queue nothing. */
  function Announcement(incidents: seq<Incident>, o: Observation): Option<(nat, IncidentEvent)> {
    var open := FirstOpen(incidents);
    if o.state == Down && open.None? then Some((|incidents|, IncidentOpened))
    else if o.state == Up && open.Some? then Some((open.value, IncidentResolved))
    else None
  }

  /** A call of the service with the settings it found. */
  datatype Call =
    | CheckCall(observation: Observation, targets: seq<Target>, alertEnabled: bool, muted: bool)
    | ResetCall(now: int)

  function RecordOf(call: Call): Record {
    match call case CheckCall(o, _, _, _) => Check(o) case ResetCall(now) => MonitorReset(now)
  }

  function HistoryOf(calls: seq<Call>): (h: seq<Record>)
    ensures |h| == |calls|
    decreases |calls|
  {
    if |calls| == 0 then [] else HistoryOf(calls[..|calls| - 1]) + [RecordOf(calls[|calls| - 1])]
  }

  /** The deliveries a call queues after a history. */
  function QueuedBy(hostId: nat, h: seq<Record>, call: Call): seq<Queued> {
    match call
    case ResetCall(_) => []
    case CheckCall(o, targets, alertEnabled, muted) =>
      var announced := if Accepts(Latest(Entries(h)), o) then Announcement(IncidentsOf(h), o) else None;
      if announced.Some? && alertEnabled
      then Deliveries(Subscribed(targets, hostId), announced.value.0, announced.value.1, muted, o.checkedAt) else []
  }

  function OutboxOf(hostId: nat, calls: seq<Call>): seq<Queued>
    decreases |calls|
  {
    if |calls| == 0 then []
    else
      var front := calls[..|calls| - 1];
      OutboxOf(hostId, front) + QueuedBy(hostId, HistoryOf(front), calls[|calls| - 1])
  }

  lemma RecordedCall(hostId: nat, calls: seq<Call>, call: Call)
    ensures HistoryOf(calls + [call]) == HistoryOf(calls) + [RecordOf(call)]
    ensures OutboxOf(hostId, calls + [call]) == OutboxOf(hostId, calls) + QueuedBy(hostId, HistoryOf(calls), call)
  {
    hide QueuedBy;
    assert (calls + [call])[..|calls|] == calls;
  }

  lemma RecordedCheck(h: seq<Record>, o: Observation)
    ensures IncidentsOf(h + [Check(o)])
         == if Accepts(RollupOf(Entries(h)).observation, o) then AfterCheck(IncidentsOf(h), o) else IncidentsOf(h)
    ensures RollupOf(Entries(h + [Check(o)])) == Recorded(RollupOf(Entries(h)), o)
  {
    assert (h + [Check(o)])[..|h|] == h;
    assert Entries(h + [Check(o)])[..|h|] == Entries(h);
    RollupObservation(Entries(h));
  }

  lemma RecordedReset(h: seq<Record>, now: int)
    ensures IncidentsOf(h + [MonitorReset(now)]) == AfterReset(IncidentsOf(h), now)
    ensures RollupOf(Entries(h + [MonitorReset(now)])) == RollupOf(Entries(h)).(observation := None)
  {
    assert (h + [MonitorReset(now)])[..|h|] == h;
    assert Entries(h + [MonitorReset(now)])[..|h|] == Entries(h);
  }

  class Monitor {
    const hostId: nat
    var daily: map<int, Daily>
    var observation: Option<Observation>
    var incidents: seq<Incident>
    var outbox: seq<Queued>
    ghost var history: seq<Record>
    ghost var calls: seq<Call>

    ghost predicate Valid()
      reads this
    {
      && Rollup(daily, observation) == RollupOf(Entries(history))
      && incidents == IncidentsOf(history)
      && history == HistoryOf(calls)
      && outbox == OutboxOf(hostId, calls)
    }

    constructor (id: nat)
      ensures Valid() && hostId == id && history == [] && calls == [] && outbox == []
    {
      hostId := id;
      daily, observation, incidents, outbox, history, calls := map[], None, [], [], [], [];
    }

    method AddDailyRow(day: int, up: nat, down: nat, checks: nat)
      modifies this`daily
      ensures daily == AddDaily(old(daily), day, up, down, checks)
    {
      if day in daily {
        var row := daily[day];
        daily := daily[day := Daily(row.upMs + up, row.downMs + down, row.checks + checks)];
      } else {
        daily := daily[day := Daily(up, down, checks)];
      }
    }

    /** The loop of recordCheck that splits the closed interval at day boundaries. */
    method CreditInterval(state: Status, from: int, end: int)
      modifies this`daily
      ensures daily == CreditDays(old(daily), state, from, end)
    {
      var start := from;
      while start < end
        invariant CreditDays(daily, state, start, end) == CreditDays(old(daily), state, from, end)
        decreases end - start
      {
        var day := start / DAY_MS;
        var boundary := Min(end, day * DAY_MS + DAY_MS);
        if state == Up {
          AddDailyRow(day, boundary - start, 0, 0);
        } else if state == Down {
          AddDailyRow(day, 0, boundary - start, 0);
        } else {
          AddDailyRow(day, 0, 0, 0);
        }
        start := boundary;
      }
    }

    method Enqueue(targets: seq<Target>, alertEnabled: bool, incident: nat, event: IncidentEvent, at: int, muted: bool)
      modifies this`outbox
      ensures outbox == old(outbox) + if alertEnabled then Deliveries(Subscribed(targets, hostId), incident, event, muted, at) else []
    {
      if !alertEnabled { return; }
      for i := 0 to |targets|
        invariant outbox == old(outbox) + Deliveries(Subscribed(targets[..i], hostId), incident, event, muted, at)
      {
        assert targets[..i + 1][..i] == targets[..i];
        if targets[i].hostIds == {} || hostId in targets[i].hostIds {
          outbox := outbox + [Queued(targets[i].id, incident, event, muted, at)];
        }
      }
      assert targets[..|targets|] == targets;
    }

    /** The end of recordCheck: open, extend or resolve an incident. */
    method UpdateIncidents(o: Observation, targets: seq<Target>, alertEnabled: bool, muted: bool)
      modifies this`incidents, this`outbox
      ensures incidents == AfterCheck(old(incidents), o)
      ensures var announced := Announcement(old(incidents), o);
              outbox == old(outbox)
                + if announced.Some? && alertEnabled
                  then Deliveries(Subscribed(targets, hostId), announced.value.0, announced.value.1, muted, o.checkedAt)
                  else []
    {
      hide FirstOpen, Deliveries, Subscribed;
      FirstOpenIs(incidents);
      var open := FirstOpen(incidents);
      if o.state == Down {
        if open.Some? {
          var i := incidents[open.value];
          incidents := incidents[open.value := i.(lastSeenAt := o.checkedAt, failureCount := i.failureCount + 1)];
        } else {
          incidents := incidents + [Incident(o.checkedAt, o.checkedAt, 1, None)];
          Enqueue(targets, alertEnabled, |incidents| - 1, IncidentOpened, o.checkedAt, muted);
        }
      } else if o.state == Up && open.Some? {
        incidents := incidents[open.value :=
          incidents[open.value].(resolved := Some((o.checkedAt, Recovered)), lastSeenAt := o.checkedAt)];
        Enqueue(targets, alertEnabled, open.value, IncidentResolved, o.checkedAt, muted);
      }
    }

    method RecordCheck(o: Observation, targets: seq<Target>, alertEnabled: bool, muted: bool)
      requires Valid()
      modifies this
      ensures Valid()
      ensures history == old(history) + [Check(o)]
      ensures calls == old(calls) + [CheckCall(o, targets, alertEnabled, muted)]
      ensures if old(observation).Some? && o.checkedAt <= old(observation).value.checkedAt
              then observation == old(observation) && daily == old(daily) && incidents == old(incidents) && outbox == old(outbox)
              else observation == Some(o)
      ensures var announced := if Accepts(old(observation), o) then Announcement(old(incidents), o) else None;
              outbox == old(outbox)
                + if announced.Some? && alertEnabled
                  then Deliveries(Subscribed(targets, hostId), announced.value.0, announced.value.1, muted, o.checkedAt)
                  else []
    {
      hide RollupOf, IncidentsOf, Entries, AfterCheck, Announcement, CreditDays, Deliveries, Subscribed, HistoryOf, OutboxOf;
      RecordedCheck(history, o);
      RollupObservation(Entries(history));
      RecordedCall(hostId, calls, CheckCall(o, targets, alertEnabled, muted));
      history := history + [Check(o)];
      calls := calls + [CheckCall(o, targets, alertEnabled, muted)];
      var previous := observation;
      if previous.Some? && previous.value.checkedAt >= o.checkedAt { return; }
      if previous.Some? && previous.value.state != Unknown {
        var start := previous.value.checkedAt;
        var end := Min(o.checkedAt, start + previous.value.intervalSeconds * 1000);
        CreditInterval(previous.value.state, start, end);
      }
      AddDailyRow(o.checkedAt / DAY_MS, 0, 0, 1);
      observation := Some(o);
      UpdateIncidents(o, targets, alertEnabled, muted);
    }

    method ResetHost(now: int)
      requires Valid()
      modifies this`observation, this`incidents, this`history, this`calls
      ensures Valid()
      ensures history == old(history) + [MonitorReset(now)] && calls == old(calls) + [ResetCall(now)]
    {
      hide RollupOf, IncidentsOf, Entries, HistoryOf, OutboxOf;
      RecordedReset(history, now);
      RecordedCall(hostId, calls, ResetCall(now));
      history := history + [MonitorReset(now)];
      calls := calls + [ResetCall(now)];
      observation := None;
      incidents := seq(|incidents|, i requires 0 <= i < |incidents| reads this =>
        if incidents[i].resolved.None? then incidents[i].(resolved := Some((now, MonitorChanged))) else incidents[i]);
    }

    /** The two queries of a report: each sees the rows of its own moment. */
    method ReadDaily() returns (rows: map<int, Daily>)
      requires Valid()
      ensures rows == RollupOf(Entries(history)).daily
    {
      rows := daily;
    }

    method ReadObservation() returns (current: Option<Observation>)
      requires Valid()
      ensures current == Latest(Entries(history))
    {
      RollupObservation(Entries(history));
      current := observation;
    }
  }
}
