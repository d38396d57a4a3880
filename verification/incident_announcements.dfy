/** What subscribers hear of a host's outages, over every sequence of checks, resets and settings. */
module IncidentAnnouncements {
  import opened Wrappers
  import opened Uptime
  import opened HostMonitor

  /** History before call k. */
  function Before(calls: seq<Call>, k: nat): seq<Record>
    requires k <= |calls|
  {
    HistoryOf(calls[..k])
  }

  function QueuedAt(hostId: nat, calls: seq<Call>, k: nat): seq<Queued>
    requires k < |calls|
  {
    QueuedBy(hostId, Before(calls, k), calls[k])
  }

  lemma HistoryGrows(calls: seq<Call>, k: nat)
    requires k < |calls|
    ensures Before(calls, k + 1) == Before(calls, k) + [RecordOf(calls[k])]
  {
    assert calls[..k + 1][..k] == calls[..k];
  }

  predicate IsSubscribed(hostId: nat, targets: seq<Target>, id: nat) {
    exists j | 0 <= j < |targets| :: targets[j].id == id && (targets[j].hostIds == {} || hostId in targets[j].hostIds)
  }

  // ---------- What one check changes ----------

  /** The step of the outage counter, and of the incidents with it. */
  lemma {:induction false} StepOfCheck(h: seq<Record>, o: Observation)
    ensures var h' := h + [Check(o)];
            var was, now := IncidentsOf(h), IncidentsOf(h');
            var open := FirstOpen(was);
            && (open.Some? ==> open.value < |was| && was[open.value].resolved.None?)
            && (open.Some? <==> OutageChecks(h) > 0)
            && now == (if Accepts(Latest(Entries(h)), o) then AfterCheck(was, o) else was)
            && OutageChecks(h') == (if !Accepts(Latest(Entries(h)), o) then OutageChecks(h)
                                    else match o.state case Down => OutageChecks(h) + 1 case Up => 0 case Unknown => OutageChecks(h))
  {
    assert h + [Check(o)] != [] && (h + [Check(o)])[..|h|] == h;
    FirstOpenIs(IncidentsOf(h));
    OneOpenIncident(h, 0, 0);
    if FirstOpen(IncidentsOf(h)).Some? {
      OneOpenIncident(h, FirstOpen(IncidentsOf(h)).value, 0);
    }
    hide FirstOpen, AfterCheck, Accepts, Latest, Entries;
  }

  /** What a check may announce after a history. */
  function AnnouncedBy(h: seq<Record>, o: Observation): Option<(nat, IncidentEvent)> {
    if Accepts(Latest(Entries(h)), o) then Announcement(IncidentsOf(h), o) else None
  }

  /** An opened delivery begins the incident it names: the outage counter leaves zero at this check. */
  ghost predicate Opens(h: seq<Record>, o: Observation, incident: nat) {
    var was, now := IncidentsOf(h), IncidentsOf(h + [Check(o)]);
    && OutageChecks(h) == 0 && OutageChecks(h + [Check(o)]) == 1
    && incident == |was| && now == was + [Incident(o.checkedAt, o.checkedAt, 1, None)]
  }

  /** A resolved delivery names the incident that this check closes as recovered. */
  ghost predicate Resolves(h: seq<Record>, o: Observation, incident: nat) {
    var was, now := IncidentsOf(h), IncidentsOf(h + [Check(o)]);
    && OutageChecks(h) > 0 && OutageChecks(h + [Check(o)]) == 0
    && incident < |was| == |now| && was[incident].resolved.None? && now[incident].resolved == Some((o.checkedAt, Recovered))
  }

  lemma AnnouncedExactly(h: seq<Record>, o: Observation, incident: nat)
    ensures AnnouncedBy(h, o) == Some((incident, IncidentOpened)) <==> Opens(h, o, incident)
    ensures AnnouncedBy(h, o) == Some((incident, IncidentResolved)) <==> Resolves(h, o, incident)
  {
    StepOfCheck(h, o);
    var was := IncidentsOf(h);
    var open := FirstOpen(was);
    if Resolves(h, o, incident) {
      OneOpenIncident(h, incident, open.value);
      assert Open(was, incident) && Open(was, open.value);
    }
    hide IncidentsOf, OutageChecks, FirstOpen, Latest, Entries;
  }

  // ---------- Who is told ----------

  /** The delivery for one target id, as often as a list holds it. */
  function CountTo(queued: seq<Queued>, id: nat): nat
    decreases |queued|
  {
    if |queued| == 0 then 0
    else CountTo(queued[..|queued| - 1], id) + if queued[|queued| - 1].target == id then 1 else 0
  }

  lemma {:induction false} SubscribedIs(hostId: nat, targets: seq<Target>, t: Target)
    ensures t in Subscribed(targets, hostId) <==> t in targets && (t.hostIds == {} || hostId in t.hostIds)
    decreases |targets|
  {
    if |targets| > 0 {
      SubscribedIs(hostId, targets[..|targets| - 1], t);
      assert targets == targets[..|targets| - 1] + [targets[|targets| - 1]];
    }
  }

  ghost predicate DistinctTargets(targets: seq<Target>) {
    forall i, j | 0 <= i < j < |targets| :: targets[i].id != targets[j].id
  }

  lemma DeliveriesSnoc(targets: seq<Target>, t: Target, incident: nat, event: IncidentEvent, muted: bool, at: int)
    ensures Deliveries(targets + [t], incident, event, muted, at)
         == Deliveries(targets, incident, event, muted, at) + [Queued(t.id, incident, event, muted, at)]
  {
  }

  lemma CountSnoc(queued: seq<Queued>, q: Queued, id: nat)
    ensures CountTo(queued + [q], id) == CountTo(queued, id) + if q.target == id then 1 else 0
  {
    assert (queued + [q])[..|queued|] == queued;
  }

  lemma NobodyTold(hostId: nat, id: nat, incident: nat, event: IncidentEvent, muted: bool, at: int)
    ensures CountTo(Deliveries(Subscribed([], hostId), incident, event, muted, at), id) == 0
  {
  }

  lemma {:induction false} CountDeliveries(
      hostId: nat, targets: seq<Target>, id: nat, incident: nat, event: IncidentEvent, muted: bool, at: int)
    requires DistinctTargets(targets)
    ensures CountTo(Deliveries(Subscribed(targets, hostId), incident, event, muted, at), id)
         == if IsSubscribed(hostId, targets, id) then 1 else 0
    decreases |targets|
  {
    if |targets| == 0 {
      NobodyTold(hostId, id, incident, event, muted, at);
      return;
    }
    hide CountTo, Deliveries;
    var front, last := targets[..|targets| - 1], targets[|targets| - 1];
    CountDeliveries(hostId, front, id, incident, event, muted, at);
    var queued := Deliveries(Subscribed(front, hostId), incident, event, muted, at);
    if last.hostIds == {} || hostId in last.hostIds {
      DeliveriesSnoc(Subscribed(front, hostId), last, incident, event, muted, at);
      CountSnoc(queued, Queued(last.id, incident, event, muted, at), id);
      assert last.id == id ==> IsSubscribed(hostId, targets, id) && !IsSubscribed(hostId, front, id);
    } else {
      assert Subscribed(front, hostId) + [] == Subscribed(front, hostId);
    }
    assert IsSubscribed(hostId, front, id) ==> IsSubscribed(hostId, targets, id);
  }

  lemma {:induction false} DeliveriesAre(
      hostId: nat, targets: seq<Target>, incident: nat, event: IncidentEvent, muted: bool, at: int, d: Queued)
    ensures d in Deliveries(Subscribed(targets, hostId), incident, event, muted, at)
        <==> d == Queued(d.target, incident, event, muted, at) && IsSubscribed(hostId, targets, d.target)
  {
    var subscribed := Subscribed(targets, hostId);
    var queued := Deliveries(subscribed, incident, event, muted, at);
    if d in queued {
      var j :| 0 <= j < |queued| && queued[j] == d;
      SubscribedIs(hostId, targets, subscribed[j]);
      var i :| 0 <= i < |targets| && targets[i] == subscribed[j];
      assert targets[i].id == d.target;
    }
    if d == Queued(d.target, incident, event, muted, at) && IsSubscribed(hostId, targets, d.target) {
      var j :| 0 <= j < |targets| && targets[j].id == d.target && (targets[j].hostIds == {} || hostId in targets[j].hostIds);
      SubscribedIs(hostId, targets, targets[j]);
      var i :| 0 <= i < |subscribed| && subscribed[i] == targets[j];
      assert queued[i] == d;
    }
  }

  lemma QueuedByText(hostId: nat, h: seq<Record>, call: Call)
    requires call.CheckCall?
    ensures var announced := AnnouncedBy(h, call.observation);
            QueuedBy(hostId, h, call) == if announced.Some? && call.alertEnabled
              then Deliveries(Subscribed(call.targets, hostId), announced.value.0, announced.value.1, call.muted,
                              call.observation.checkedAt)
              else []
  {
    hide Announcement, IncidentsOf, Accepts, Latest, Entries, Deliveries, Subscribed;
  }

  lemma QueuedByIs(hostId: nat, h: seq<Record>, call: Call, d: Queued)
    requires call.CheckCall?
    ensures d in QueuedBy(hostId, h, call) <==>
              && call.alertEnabled && d.createdAt == call.observation.checkedAt && d.muted == call.muted
              && IsSubscribed(hostId, call.targets, d.target)
              && AnnouncedBy(h, call.observation) == Some((d.incident, d.event))
  {
    var announced := AnnouncedBy(h, call.observation);
    hide AnnouncedBy, Announcement, IncidentsOf, Accepts, Latest, Entries, IsSubscribed, Deliveries, Subscribed;
    if announced.Some? {
      DeliveriesAre(hostId, call.targets, announced.value.0, announced.value.1, call.muted, call.observation.checkedAt, d);
    }
    assert QueuedBy(hostId, h, call) == if announced.Some? && call.alertEnabled
      then Deliveries(Subscribed(call.targets, hostId), announced.value.0, announced.value.1, call.muted,
                      call.observation.checkedAt)
      else []
      by { QueuedByText(hostId, h, call); }
  }

  /**
   * Over every sequence of calls: a delivery is queued exactly by a check, with alerts on, that begins the incident it
   * announces or that closes it as recovered, at the time and with the mute of that check, for a subscribed target.
   */
  lemma {:induction false} QueuedExactly(hostId: nat, calls: seq<Call>, k: nat, d: Queued)
    requires k < |calls|
    ensures d in QueuedAt(hostId, calls, k) <==>
              match calls[k]
              case ResetCall(_) => false
              case CheckCall(o, targets, alertEnabled, muted) =>
                && alertEnabled && d.createdAt == o.checkedAt && d.muted == muted && IsSubscribed(hostId, targets, d.target)
                && match d.event
                   case IncidentOpened => Opens(Before(calls, k), o, d.incident)
                   case IncidentResolved => Resolves(Before(calls, k), o, d.incident)
  {
    if calls[k].ResetCall? { return; }
    AnnouncedExactly(Before(calls, k), calls[k].observation, d.incident);
    hide Before, Opens, Resolves, AnnouncedBy, IsSubscribed, QueuedBy;
    QueuedByIs(hostId, Before(calls, k), calls[k], d);
  }

  /** Each subscribed target gets one such delivery, every other none. */
  lemma {:induction false} ToldOnce(hostId: nat, calls: seq<Call>, k: nat, id: nat)
    requires k < |calls| && calls[k].CheckCall? && DistinctTargets(calls[k].targets)
    ensures var call := calls[k];
            var h := Before(calls, k);
            CountTo(QueuedAt(hostId, calls, k), id)
            == if call.alertEnabled && IsSubscribed(hostId, call.targets, id)
                  && (exists i: nat :: Opens(h, call.observation, i) || Resolves(h, call.observation, i)) then 1 else 0
  {
    var h, call := Before(calls, k), calls[k];
    var o := call.observation;
    var announced := if Accepts(Latest(Entries(h)), o) then Announcement(IncidentsOf(h), o) else None;
    if announced.Some? {
      CountDeliveries(hostId, call.targets, id, announced.value.0, announced.value.1, call.muted, o.checkedAt);
      AnnouncedExactly(h, o, announced.value.0);
      assert Opens(h, o, announced.value.0) || Resolves(h, o, announced.value.0);
    }
    if i: nat :| Opens(h, o, i) || Resolves(h, o, i) {
      AnnouncedExactly(h, o, i);
    }
    hide Announcement, IncidentsOf, Opens, Resolves, Before, Accepts, IsSubscribed, Deliveries, Subscribed;
  }

  // ---------- What one target hears over time ----------

  ghost predicate Hears(hostId: nat, calls: seq<Call>, k: nat, id: nat, d: Queued) {
    k < |calls| && d in QueuedAt(hostId, calls, k) && d.target == id
  }

  ghost predicate Silent(hostId: nat, calls: seq<Call>, from: nat, until: nat, id: nat) {
    forall k: nat, d | from <= k < until :: !Hears(hostId, calls, k, id, d)
  }

  ghost predicate ResetWithin(calls: seq<Call>, from: nat, until: nat) {
    exists k: nat :: from <= k < until && k < |calls| && calls[k].ResetCall?
  }

  /** Alerts are on and the target is subscribed at every check. */
  ghost predicate Listening(hostId: nat, calls: seq<Call>, id: nat) {
    forall k | 0 <= k < |calls| && calls[k].CheckCall? :: calls[k].alertEnabled && IsSubscribed(hostId, calls[k].targets, id)
  }

  /** The open incident, if any, after k calls. */
  function OpenAt(calls: seq<Call>, k: nat): Option<nat>
    requires k <= |calls|
  {
    FirstOpen(IncidentsOf(Before(calls, k)))
  }

  lemma {:induction false} NoneOpen(incidents: seq<Incident>, now: int)
    ensures FirstOpen(AfterReset(incidents, now)).None?
  {
    FirstOpenIs(AfterReset(incidents, now));
  }

  lemma OnlyOpen(h: seq<Record>, i: nat)
    requires Open(IncidentsOf(h), i)
    ensures FirstOpen(IncidentsOf(h)) == Some(i)
  {
    FirstOpenIs(IncidentsOf(h));
    if FirstOpen(IncidentsOf(h)).Some? { OneOpenIncident(h, i, FirstOpen(IncidentsOf(h)).value); }
  }

  lemma SilentCheck(h: seq<Record>, o: Observation)
    requires forall i: nat :: !Opens(h, o, i) && !Resolves(h, o, i)
    ensures FirstOpen(IncidentsOf(h + [Check(o)])) == FirstOpen(IncidentsOf(h))
  {
    StepOfCheck(h, o);
    var was, now := IncidentsOf(h), IncidentsOf(h + [Check(o)]);
    var open := FirstOpen(was);
    AnnouncedExactly(h, o, |was|);
    if open.Some? {
      AnnouncedExactly(h, o, open.value);
      assert now[open.value].resolved.None?;
      OnlyOpen(h + [Check(o)], open.value);
    } else {
      assert now == was;
    }
  }

  /** A check leaves its opened incident open, or none if it resolved one, and otherwise what was open. */
  lemma {:induction false} OpenAfterCheck(h: seq<Record>, o: Observation)
    ensures var before, after := FirstOpen(IncidentsOf(h)), FirstOpen(IncidentsOf(h + [Check(o)]));
            && (forall i: nat | Opens(h, o, i) :: before.None? && after == Some(i))
            && (forall i: nat | Resolves(h, o, i) :: before == Some(i) && after.None?)
            && ((forall i: nat :: !Opens(h, o, i) && !Resolves(h, o, i)) ==> after == before)
  {
    var h' := h + [Check(o)];
    StepOfCheck(h, o);
    FirstOpenIs(IncidentsOf(h'));
    FirstOpenIs(IncidentsOf(h));
    var was, now := IncidentsOf(h), IncidentsOf(h');
    forall i: nat | Opens(h, o, i) ensures FirstOpen(was).None? && FirstOpen(now) == Some(i) {
      OnlyOpen(h', i);
    }
    forall i: nat | Resolves(h, o, i) ensures FirstOpen(was) == Some(i) && FirstOpen(now).None? {
      OnlyOpen(h, i);
      if FirstOpen(now).Some? { OneOpenIncident(h', FirstOpen(now).value, FirstOpen(now).value); }
    }
    if forall i: nat :: !Opens(h, o, i) && !Resolves(h, o, i) {
      SilentCheck(h, o);
    }
  }

  /** A check that says nothing to a listening target neither opens nor resolves. */
  lemma SilentMeans(hostId: nat, calls: seq<Call>, k: nat, id: nat, i: nat)
    requires k < |calls| && calls[k].CheckCall? && Listening(hostId, calls, id) && Silent(hostId, calls, k, k + 1, id)
    ensures !Opens(Before(calls, k), calls[k].observation, i) && !Resolves(Before(calls, k), calls[k].observation, i)
  {
    var begun := Queued(id, i, IncidentOpened, calls[k].muted, calls[k].observation.checkedAt);
    var ended := Queued(id, i, IncidentResolved, calls[k].muted, calls[k].observation.checkedAt);
    QueuedExactly(hostId, calls, k, begun);
    QueuedExactly(hostId, calls, k, ended);
    assert !Hears(hostId, calls, k, id, begun) && !Hears(hostId, calls, k, id, ended);
    hide Opens, Resolves, QueuedAt, Before, IsSubscribed;
  }

  lemma SilentStep(hostId: nat, calls: seq<Call>, k: nat, id: nat)
    requires k < |calls| && Listening(hostId, calls, id) && Silent(hostId, calls, k, k + 1, id)
    ensures OpenAt(calls, k + 1) == if calls[k].ResetCall? then None else OpenAt(calls, k)
  {
    HistoryGrows(calls, k);
    var h := Before(calls, k);
    hide Opens, Resolves, Before, IncidentsOf, FirstOpen, AfterReset, Silent, Listening;
    if calls[k].ResetCall? {
      RecordedReset(h, calls[k].now);
      NoneOpen(IncidentsOf(h), calls[k].now);
    } else {
      forall i: nat ensures !Opens(h, calls[k].observation, i) && !Resolves(h, calls[k].observation, i) {
        SilentMeans(hostId, calls, k, id, i);
      }
      OpenAfterCheck(h, calls[k].observation);
    }
  }

  /** While nothing is heard, only a reset changes what is open. */
  lemma {:induction false} OpenWhileSilent(hostId: nat, calls: seq<Call>, from: nat, until: nat, id: nat)
    requires from <= until <= |calls| && Listening(hostId, calls, id) && Silent(hostId, calls, from, until, id)
    ensures OpenAt(calls, until) == if ResetWithin(calls, from, until) then None else OpenAt(calls, from)
    decreases until
  {
    hide OpenAt, Listening, Hears;
    if from < until {
      OpenWhileSilent(hostId, calls, from, until - 1, id);
      SilentStep(hostId, calls, until - 1, id);
      assert ResetWithin(calls, from, until) <==> ResetWithin(calls, from, until - 1) || calls[until - 1].ResetCall?;
    }
  }

  /** What is open around a delivery. */
  lemma OpenAround(hostId: nat, calls: seq<Call>, k: nat, id: nat, d: Queued)
    requires Hears(hostId, calls, k, id, d)
    ensures if d.event.IncidentOpened? then OpenAt(calls, k).None? && OpenAt(calls, k + 1) == Some(d.incident)
            else OpenAt(calls, k) == Some(d.incident) && OpenAt(calls, k + 1).None?
    ensures d.event.IncidentOpened? ==> d.incident == |IncidentsOf(Before(calls, k))|
    ensures d.incident < |IncidentsOf(Before(calls, k + 1))|
  {
    QueuedExactly(hostId, calls, k, d);
    HistoryGrows(calls, k);
    OpenAfterCheck(Before(calls, k), calls[k].observation);
    hide FirstOpen, IncidentsOf, OutageChecks, Before, QueuedAt;
  }

  lemma OneMayFollow(h: seq<Record>, r: Record)
    ensures |IncidentsOf(h)| <= |IncidentsOf(h + [r])|
  {
    if r.Check? { StepOfCheck(h, r.observation); } else { RecordedReset(h, r.now); }
    hide FirstOpen, IncidentsOf, OutageChecks, Latest, Entries;
  }

  lemma {:induction false} IncidentsGrow(calls: seq<Call>, from: nat, until: nat)
    requires from <= until <= |calls|
    ensures |IncidentsOf(Before(calls, from))| <= |IncidentsOf(Before(calls, until))|
    decreases until
  {
    hide IncidentsOf, Before;
    if from < until {
      IncidentsGrow(calls, from, until - 1);
      HistoryGrows(calls, until - 1);
      OneMayFollow(Before(calls, until - 1), RecordOf(calls[until - 1]));
    }
  }

  /**
   * A target that listens throughout hears opened, resolved, opened ...: after an opened incident its resolution,
   * unless a reset of the monitor ended it silently, and then, as after a resolution, the next, later incident.
   */
  lemma {:induction false} AnnouncementsAlternate(
      hostId: nat, calls: seq<Call>, id: nat, j: nat, d: Queued, k: nat, e: Queued)
    requires Listening(hostId, calls, id) && j < k
    requires Hears(hostId, calls, j, id, d) && Hears(hostId, calls, k, id, e) && Silent(hostId, calls, j + 1, k, id)
    ensures e.event.IncidentResolved? <==> d.event.IncidentOpened? && !ResetWithin(calls, j + 1, k)
    ensures if e.event.IncidentResolved? then e.incident == d.incident else e.incident > d.incident
  {
    OpenAround(hostId, calls, j, id, d);
    OpenAround(hostId, calls, k, id, e);
    OpenWhileSilent(hostId, calls, j + 1, k, id);
    IncidentsGrow(calls, j + 1, k);
    hide Hears, Silent, Listening, OpenAt, IncidentsOf;
  }

  /** The first thing it hears is that an incident opened. */
  lemma {:induction false} FirstAnnouncementOpens(hostId: nat, calls: seq<Call>, id: nat, k: nat, e: Queued)
    requires Listening(hostId, calls, id) && Hears(hostId, calls, k, id, e) && Silent(hostId, calls, 0, k, id)
    ensures e.event.IncidentOpened?
  {
    OpenAround(hostId, calls, k, id, e);
    OpenWhileSilent(hostId, calls, 0, k, id);
    assert OpenAt(calls, 0).None?;
    hide Hears, Silent, Listening, OpenAt;
  }

  lemma LastCall(hostId: nat, calls: seq<Call>)
    requires |calls| > 0
    ensures OutboxOf(hostId, calls) == OutboxOf(hostId, calls[..|calls| - 1]) + QueuedAt(hostId, calls, |calls| - 1)
  {
    hide QueuedBy, HistoryOf;
  }

  lemma EarlierCall(hostId: nat, calls: seq<Call>, k: nat)
    requires k < |calls| - 1
    ensures QueuedAt(hostId, calls[..|calls| - 1], k) == QueuedAt(hostId, calls, k)
  {
    hide QueuedBy, HistoryOf;
    assert calls[..|calls| - 1][..k] == calls[..k];
  }

  /** The outbox holds what the calls queued, and nothing else. */
  lemma {:induction false} OutboxComesFromCalls(hostId: nat, calls: seq<Call>, d: Queued) returns (k: nat)
    requires d in OutboxOf(hostId, calls)
    ensures k < |calls| && d in QueuedAt(hostId, calls, k)
    decreases |calls|
  {
    assert |calls| > 0;
    hide OutboxOf, QueuedAt;
    LastCall(hostId, calls);
    if d in QueuedAt(hostId, calls, |calls| - 1) {
      k := |calls| - 1;
    } else {
      k := OutboxComesFromCalls(hostId, calls[..|calls| - 1], d);
      EarlierCall(hostId, calls, k);
    }
  }

  lemma {:induction false} CallsFillTheOutbox(hostId: nat, calls: seq<Call>, k: nat, d: Queued)
    requires k < |calls| && d in QueuedAt(hostId, calls, k)
    ensures d in OutboxOf(hostId, calls)
    decreases |calls|
  {
    hide OutboxOf, QueuedAt;
    LastCall(hostId, calls);
    if k < |calls| - 1 {
      EarlierCall(hostId, calls, k);
      CallsFillTheOutbox(hostId, calls[..|calls| - 1], k, d);
    }
  }

  // ---------- Times and ends of incidents ----------

  /** When the outage in progress began, by the accepted checks alone. */
  function OutageBegan(h: seq<Record>): Option<int>
    decreases |h|
  {
    if |h| == 0 then None
    else
      var before := OutageBegan(h[..|h| - 1]);
      match h[|h| - 1]
      case MonitorReset(_) => None
      case Check(o) =>
        if !Accepts(Latest(Entries(h[..|h| - 1])), o) then before
        else match o.state case Down => (if before.None? then Some(o.checkedAt) else before) case Up => None case Unknown => before
  }

  /** When it was last seen. */
  function OutageSeen(h: seq<Record>): Option<int>
    decreases |h|
  {
    if |h| == 0 then None
    else
      var before := OutageSeen(h[..|h| - 1]);
      match h[|h| - 1]
      case MonitorReset(_) => None
      case Check(o) =>
        if !Accepts(Latest(Entries(h[..|h| - 1])), o) then before
        else match o.state case Down => Some(o.checkedAt) case Up => None case Unknown => before
  }

  ghost predicate TimesOk(h: seq<Record>) {
    var open := FirstOpen(IncidentsOf(h));
    if open.None? then OutageBegan(h).None? && OutageSeen(h).None?
    else && open.value < |IncidentsOf(h)|
         && OutageBegan(h) == Some(IncidentsOf(h)[open.value].openedAt)
         && OutageSeen(h) == Some(IncidentsOf(h)[open.value].lastSeenAt)
  }

  lemma TimesAfterReset(h: seq<Record>, now: int)
    ensures TimesOk(h + [MonitorReset(now)])
  {
    RecordedReset(h, now);
    NoneOpen(IncidentsOf(h), now);
    hide IncidentsOf, FirstOpen;
  }

  lemma StepOfTimes(h: seq<Record>, o: Observation)
    ensures var h' := h + [Check(o)];
            if !Accepts(Latest(Entries(h)), o) || o.state.Unknown? then
              OutageBegan(h') == OutageBegan(h) && OutageSeen(h') == OutageSeen(h)
            else if o.state.Up? then OutageBegan(h').None? && OutageSeen(h').None?
            else OutageBegan(h') == Some(if OutageBegan(h).None? then o.checkedAt else OutageBegan(h).value)
                 && OutageSeen(h') == Some(o.checkedAt)
  {
    assert (h + [Check(o)])[..|h|] == h;
    hide Accepts, Latest, Entries;
  }

  lemma TimesAfterCheck(h: seq<Record>, o: Observation)
    requires TimesOk(h)
    ensures TimesOk(h + [Check(o)])
  {
    StepOfTimes(h, o);
    StepOfCheck(h, o);
    OpenAfterCheck(h, o);
    var h' := h + [Check(o)];
    var open := FirstOpen(IncidentsOf(h));
    hide OutageBegan, OutageSeen, IncidentsOf, FirstOpen, Latest, Entries;
    if Accepts(Latest(Entries(h)), o) && o.state.Down? {
      assert Open(IncidentsOf(h'), if open.Some? then open.value else |IncidentsOf(h)|);
      OnlyOpen(h', if open.Some? then open.value else |IncidentsOf(h)|);
    } else if Accepts(Latest(Entries(h)), o) && o.state.Up? && open.Some? {
      assert Resolves(h, o, open.value);
    }
  }

  lemma {:induction false} TimesAgree(h: seq<Record>)
    ensures TimesOk(h)
    decreases |h|
  {
    if |h| > 0 {
      var front, last := h[..|h| - 1], h[|h| - 1];
      assert h == front + [last];
      TimesAgree(front);
      hide TimesOk;
      match last
      case MonitorReset(now) => TimesAfterReset(front, now);
      case Check(o) => TimesAfterCheck(front, o);
    }
  }

  /** The open incident has the times of its outage. */
  lemma {:induction false} OpenIncidentTimes(h: seq<Record>, i: nat)
    requires Open(IncidentsOf(h), i)
    ensures OutageBegan(h) == Some(IncidentsOf(h)[i].openedAt) && OutageSeen(h) == Some(IncidentsOf(h)[i].lastSeenAt)
    decreases |h|
  {
    TimesAgree(h);
    OnlyOpen(h, i);
  }

  /** A closed incident never changes; a reset closes the open one, and marks it so. */
  lemma {:induction false} ClosedIncidentsStay(h: seq<Record>, r: Record, i: nat)
    requires i < |IncidentsOf(h)|
    ensures i < |IncidentsOf(h + [r])|
    ensures IncidentsOf(h)[i].resolved.Some? ==> IncidentsOf(h + [r])[i] == IncidentsOf(h)[i]
    ensures IncidentsOf(h)[i].resolved.None? && r.MonitorReset? ==>
              IncidentsOf(h + [r])[i] == IncidentsOf(h)[i].(resolved := Some((r.now, MonitorChanged)))
  {
    if r.Check? { StepOfCheck(h, r.observation); } else { RecordedReset(h, r.now); }
    hide FirstOpen, IncidentsOf, OutageChecks;
  }
}
