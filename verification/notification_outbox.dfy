/** The notification outbox: leases, bounded attempts, interrupted deliveries and explicit retries. */
module NotificationOutbox {

  type Id = nat

  const MAX_ATTEMPTS := 5
  const LEASE_MS := 5 * 60_000

  datatype Status = Pending | Sending | Sent | Failed | Cancelled | Muted

  datatype Delivery = Delivery(status: Status, attempts: nat, nextAttemptAt: int)

  /** deliverOne between its claim and its final patch; `called`: the transport was invoked. */
  datatype Flight = Flight(attempts: nat, called: bool)

  /** `Unrecorded`: the final patch itself failed, so the row keeps its lease. */
  datatype Outcome = Accepted | Threw | TargetDisabled | AlarmMuted | Unrecorded

  datatype State = State(
    rows: map<Id, Delivery>,
    sends: map<Id, nat>,            // history: transport calls since insertion or the last explicit retry
    running: bool,                  // a tick is in progress in this process
    flights: map<Id, Flight>,
    retries: map<nat, (Id, Delivery)>)

  datatype Event =
    | Enqueue(id: Id, muted: bool, at: int)
    | TickBegins(now: int)
    | Claim(id: Id, now: int)
    | Call(id: Id)
    | Finish(id: Id, outcome: Outcome, now: int)
    | TickEnds
    | ReadRetry(request: nat, id: Id)
    | CommitRetry(request: nat, now: int)
    | Retire(id: Id)              // rows past retention, except those being sent
    | RemoveHost(ids: set<Id>)    // every delivery of a deleted host
    | Crash

  // ---------- Transitions ----------

  function Backoff(attempts: nat): nat {
    if attempts == 0 then 15_000
    else if attempts >= 8 then 3_600_000
    else var delay := 30_000 * Power2(attempts - 1); if delay < 3_600_000 then delay else 3_600_000
  }

  function Power2(n: nat): nat {
    if n == 0 then 1 else 2 * Power2(n - 1)
  }

  predicate Due(d: Delivery, now: int) {
    d.status == Pending && d.nextAttemptAt <= now
  }

  function Claimed(d: Delivery, now: int): Delivery {
    Delivery(Sending, d.attempts + 1, now + LEASE_MS)
  }

  function Finished(d: Delivery, flight: Flight, outcome: Outcome, now: int): Delivery {
    match outcome
    case Accepted => d.(status := Sent)
    case TargetDisabled => d.(status := Cancelled)
    case AlarmMuted => d.(status := Muted)
    case Unrecorded => d
    case Threw =>
      d.(status := if flight.attempts >= MAX_ATTEMPTS then Failed else Pending,
         nextAttemptAt := now + Backoff(flight.attempts))
  }

  /** What a new tick does with a delivery whose lease ran out: its process died. */
  function Interrupted(d: Delivery, now: int): Delivery {
    if d.status == Sending && d.nextAttemptAt <= now then
      d.(status := if d.attempts >= MAX_ATTEMPTS then Failed else Pending)
    else d
  }

  predicate Retryable(d: Delivery) {
    d.status == Failed || d.status == Pending || d.status == Muted
  }

  function SendsOf(s: State, id: Id): nat {
    if id in s.sends then s.sends[id] else 0
  }

  function Next(s: State, e: Event): State {
    match e
    case Enqueue(id, muted, at) =>
      if id in s.sends then s
      else s.(rows := s.rows[id := Delivery(if muted then Muted else Pending, 0, at)], sends := s.sends[id := 0])
    case TickBegins(now) =>
      if s.running then s
      else s.(running := true, rows := map id | id in s.rows :: Interrupted(s.rows[id], now))
    case Claim(id, now) =>
      if s.running && id in s.rows && Due(s.rows[id], now) then
        s.(rows := s.rows[id := Claimed(s.rows[id], now)], flights := s.flights[id := Flight(s.rows[id].attempts + 1, false)])
      else s
    case Call(id) =>
      if id in s.flights && !s.flights[id].called then
        s.(flights := s.flights[id := s.flights[id].(called := true)], sends := s.sends[id := SendsOf(s, id) + 1])
      else s
    case Finish(id, outcome, now) =>
      if id in s.flights && (outcome.Accepted? ==> s.flights[id].called)
         && (outcome.TargetDisabled? || outcome.AlarmMuted? ==> !s.flights[id].called) then
        s.(rows := if id in s.rows then s.rows[id := Finished(s.rows[id], s.flights[id], outcome, now)] else s.rows,
           flights := s.flights - {id})
      else s
    case TickEnds => if s.flights == map[] then s.(running := false) else s
    case ReadRetry(r, id) => if id in s.rows && Retryable(s.rows[id]) then s.(retries := s.retries[r := (id, s.rows[id])]) else s
    case CommitRetry(r, now) =>
      if r in s.retries && s.retries[r].0 in s.rows
         && s.rows[s.retries[r].0].status == s.retries[r].1.status
         && s.rows[s.retries[r].0].attempts == s.retries[r].1.attempts then
        var id := s.retries[r].0;
        s.(rows := s.rows[id := Delivery(Pending, 0, now)], sends := s.sends[id := 0], retries := s.retries - {r})
      else s.(retries := s.retries - {r})
    case Retire(id) =>
      if id in s.rows && s.rows[id].status != Sending then s.(rows := s.rows - {id}) else s
    case RemoveHost(ids) => s.(rows := s.rows - ids)
    case Crash => s.(running := false, flights := map[], retries := map[])
  }

  const Init := State(map[], map[], false, map[], map[])

  function Run(events: seq<Event>): State
    decreases |events|
  {
    if |events| == 0 then Init else Next(Run(events[..|events| - 1]), events[|events| - 1])
  }

  // ---------- Bounded attempts ----------

  ghost predicate DeliveryOk(d: Delivery, sends: nat) {
    && d.attempts <= MAX_ATTEMPTS
    && (d.status == Pending ==> d.attempts < MAX_ATTEMPTS)
    && sends <= d.attempts
  }

  ghost predicate Inv(s: State) {
    && (forall id | id in s.rows :: DeliveryOk(s.rows[id], SendsOf(s, id)))
    && (s.flights != map[] ==> s.running)
    && (forall id | id in s.rows :: id in s.sends)
    && (forall id | id in s.sends :: s.sends[id] <= MAX_ATTEMPTS)
    && (forall id | id in s.flights ::
          id in s.sends && s.flights[id].attempts <= MAX_ATTEMPTS
          && (!s.flights[id].called ==> SendsOf(s, id) < s.flights[id].attempts))
    && (forall id | id in s.flights && id in s.rows ::
          s.rows[id].status == Sending && s.rows[id].attempts == s.flights[id].attempts)
    && (forall r | r in s.retries :: Retryable(s.retries[r].1))
    && (forall id | id in s.rows && s.rows[id].status == Failed :: s.rows[id].attempts == MAX_ATTEMPTS)
  }

  lemma NextInv(s: State, e: Event)
    requires Inv(s)
    ensures Inv(Next(s, e))
  {
    hide Backoff, Inv;
    match e
    case Claim(_, _) => ClaimInv(s, e);
    case Call(_) => ClaimInv(s, e);
    case Finish(_, _, _) => FinishInv(s, e);
    case CommitRetry(_, _) => FinishInv(s, e);
    case TickBegins(now) => TickInv(s, now);
    case _ => OtherInv(s, e);
  }

  lemma ClaimInv(s: State, e: Event)
    requires Inv(s) && (e.Claim? || e.Call?)
    ensures Inv(Next(s, e))
  {
  }

  lemma FinishInv(s: State, e: Event)
    requires Inv(s) && (e.Finish? || e.CommitRetry?)
    ensures Inv(Next(s, e))
  {
    hide Backoff;
  }

  lemma TickInv(s: State, now: int)
    requires Inv(s)
    ensures Inv(Next(s, TickBegins(now)))
  {
  }

  lemma OtherInv(s: State, e: Event)
    requires Inv(s) && !e.Claim? && !e.Call? && !e.Finish? && !e.CommitRetry? && !e.TickBegins?
    ensures Inv(Next(s, e))
  {
  }

  lemma {:induction false} RunInv(events: seq<Event>)
    ensures Inv(Run(events))
    decreases |events|
  {
    if |events| > 0 {
      RunInv(events[..|events| - 1]);
      NextInv(Run(events[..|events| - 1]), events[|events| - 1]);
    }
  }

  /**
   * Over every run with crashes and stale retries: between explicit retries a delivery is handed to the
   * transport at most MAX_ATTEMPTS times, and a pending delivery always has an attempt left.
   */
  lemma BoundedAttempts(events: seq<Event>, id: Id)
    ensures SendsOf(Run(events), id) <= MAX_ATTEMPTS
    ensures id in Run(events).rows ==>
              && SendsOf(Run(events), id) <= Run(events).rows[id].attempts <= MAX_ATTEMPTS
              && (Run(events).rows[id].status == Pending ==> Run(events).rows[id].attempts < MAX_ATTEMPTS)
  {
    RunInv(events);
  }

  predicate Closed(d: Delivery) {
    d.status == Sent || d.status == Cancelled
  }

  /** A delivered notification is final: it is never claimed, retried or sent again while its row exists. */
  lemma SentIsFinal(events: seq<Event>, e: Event, id: Id)
    requires id in Run(events).rows && Closed(Run(events).rows[id])
    ensures var s, s' := Run(events), Next(Run(events), e);
            && id !in s'.flights && SendsOf(s', id) == SendsOf(s, id)
            && (id in s'.rows ==> Closed(s'.rows[id]))
  {
    RunInv(events);
    hide Run, Backoff;
  }

  // ---------- What a status says ----------

  /** The transport has accepted the delivery, and its row is there to be patched. */
  predicate Accepting(s: State, e: Event, id: Id) {
    e.Finish? && e.id == id && e.outcome.Accepted? && id in s.rows && id in s.flights && s.flights[id].called
  }

  /** Its target is found disabled, or its host removed, before the transport is called. */
  predicate Cancelling(s: State, e: Event, id: Id) {
    e.Finish? && e.id == id && e.outcome.TargetDisabled? && id in s.rows && id in s.flights && !s.flights[id].called
  }

  predicate WasAccepted(events: seq<Event>, id: Id)
    decreases |events|
  {
    |events| > 0 && var front := events[..|events| - 1];
                    (WasAccepted(front, id) || Accepting(Run(front), events[|events| - 1], id))
  }

  predicate WasCancelled(events: seq<Event>, id: Id)
    decreases |events|
  {
    |events| > 0 && var front := events[..|events| - 1];
                    (WasCancelled(front, id) || Cancelling(Run(front), events[|events| - 1], id))
  }

  /** How one step may change what a status says; a removed delivery does not come back. */
  ghost predicate StatusFollows(s: State, e: Event, id: Id) {
    && (id in Next(s, e).rows && id in s.rows ==>
          && (Next(s, e).rows[id].status == Sent <==> s.rows[id].status == Sent || Accepting(s, e, id))
          && (Next(s, e).rows[id].status == Cancelled <==> s.rows[id].status == Cancelled || Cancelling(s, e, id)))
    && (id in Next(s, e).rows && id !in s.rows ==> id !in s.sends && !Closed(Next(s, e).rows[id]))
    && (id !in Next(s, e).sends ==> id !in s.sends)
    && (Accepting(s, e, id) || Cancelling(s, e, id) ==> id in s.sends)
  }

  lemma FinishFollows(s: State, e: Event, id: Id)
    requires Inv(s) && e.Finish?
    ensures StatusFollows(s, e, id)
  {
    hide Backoff;
  }

  lemma Grounded(s: State, id: Id)
    requires Inv(s)
    ensures (id in s.rows ==> id in s.sends) && forall r | r in s.retries :: Retryable(s.retries[r].1)
  {
  }

  lemma OtherFollows(s: State, e: Event, id: Id)
    requires (id in s.rows ==> id in s.sends) && (forall r | r in s.retries :: Retryable(s.retries[r].1)) && !e.Finish?
    ensures StatusFollows(s, e, id)
  {
    hide Finished;
  }

  lemma NoneClosed(s: State, e: Event, id: Id)
    ensures id in Next(s, e).rows && !Closed(Next(s, e).rows[id]) ==>
              Next(s, e).rows[id].status != Sent && Next(s, e).rows[id].status != Cancelled
  {
    hide Next;
  }

  lemma {:induction false} StatusHistory(events: seq<Event>, id: Id)
    ensures id in Run(events).rows ==>
              && (Run(events).rows[id].status == Sent <==> WasAccepted(events, id))
              && (Run(events).rows[id].status == Cancelled <==> WasCancelled(events, id))
    ensures id !in Run(events).sends ==> !WasAccepted(events, id) && !WasCancelled(events, id)
    decreases |events|
  {
    hide Inv, Next, Accepting, Cancelling, Closed;
    if |events| > 0 {
      var front := events[..|events| - 1];
      StatusHistory(front, id);
      RunInv(front);
      if events[|events| - 1].Finish? { FinishFollows(Run(front), events[|events| - 1], id); }
      else { Grounded(Run(front), id); OtherFollows(Run(front), events[|events| - 1], id); }
      NoneClosed(Run(front), events[|events| - 1], id);
    }
  }

  /**
   * Over every run: a stored delivery is marked sent exactly if the transport has accepted it, and cancelled exactly if
   * it was found disabled before a call; one marked failed has used up its five attempts.
   */
  lemma {:induction false} StatusTellsOutcome(events: seq<Event>, id: Id)
    requires id in Run(events).rows
    ensures Run(events).rows[id].status == Sent <==> WasAccepted(events, id)
    ensures Run(events).rows[id].status == Cancelled <==> WasCancelled(events, id)
    ensures Run(events).rows[id].status == Failed ==> Run(events).rows[id].attempts == 5
  {
    StatusHistory(events, id);
    RunInv(events);
    hide Run, WasAccepted, WasCancelled;
  }

  /** A new delivery is muted exactly if its alarm was, due at its own moment and untried. */
  lemma EnqueuedAs(s: State, id: Id, muted: bool, at: int)
    requires id !in s.sends
    ensures var t := Next(s, Enqueue(id, muted, at));
            id in t.rows && t.rows[id] == Delivery(if muted then Muted else Pending, 0, at)
  {
  }

  /** A claim protects its delivery for five minutes: no tick that begins earlier takes it for interrupted. */
  lemma {:induction false} ClaimIsALease(s: State, id: Id, now: int, later: int)
    requires s.running && id in s.rows && s.rows[id].status == Pending && s.rows[id].nextAttemptAt <= now
    ensures var claimed := Next(s, Claim(id, now));
            var t := Next(Next(claimed, Crash), TickBegins(later));
            && claimed.rows[id].status == Sending && claimed.rows[id].attempts == s.rows[id].attempts + 1
            && id in t.rows && (t.rows[id] == claimed.rows[id] <==> later < now + 5 * 60 * 1000)
  {
  }

  /** A delivery at rest changes only by an explicit retry, and is not sent meanwhile. */
  lemma {:induction false} RestsUntilRetried(events: seq<Event>, e: Event, id: Id)
    requires id in Run(events).rows && Run(events).rows[id].status in {Sent, Failed, Cancelled, Muted} && !e.CommitRetry?
    ensures var s, s' := Run(events), Next(Run(events), e);
            SendsOf(s', id) == SendsOf(s, id) && (id in s'.rows ==> s'.rows[id] == s.rows[id])
  {
    RunInv(events);
    hide Run;
  }

  /** A failed attempt is repeated after half a minute, then after twice the time each, up to an hour. */
  lemma DelaysDouble(attempts: nat)
    requires attempts >= 1
    ensures Backoff(1) == 30 * 1000
    ensures Backoff(attempts + 1) == if 2 * Backoff(attempts) < 60 * 60 * 1000 then 2 * Backoff(attempts) else 60 * 60 * 1000
  {
    if attempts < 8 {
      assert Power2(0) == 1 && Power2(1) == 2 && Power2(2) == 4 && Power2(3) == 8 && Power2(4) == 16;
      assert Power2(5) == 32 && Power2(6) == 64 && Power2(7) == 128;
    }
  }

  // ---------- The worker ----------

  class Worker {
    var rows: map<Id, Delivery>

    constructor ()
      ensures rows == map[]
    {
      rows := map[];
    }

    /** The claiming transaction of deliverOne. */
    method ClaimDelivery(id: Id, now: int) returns (claimed: bool)
      modifies this
      ensures claimed <==> id in old(rows) && old(rows)[id].status == Pending && old(rows)[id].nextAttemptAt <= now
      ensures rows == if claimed then old(rows)[id := Claimed(old(rows)[id], now)] else old(rows)
    {
      if id !in rows || rows[id].status != Pending || rows[id].nextAttemptAt > now { return false; }
      rows := rows[id := Delivery(Sending, rows[id].attempts + 1, now + 5 * 60_000)];
      return true;
    }

    /** The catch branch of deliverOne. */
    method RecordFailure(id: Id, now: int)
      requires id in rows && 1 <= rows[id].attempts <= MAX_ATTEMPTS
      modifies this
      ensures rows == old(rows)[id := Finished(old(rows)[id], Flight(old(rows)[id].attempts, true), Threw, now)]
    {
      var attempts := rows[id].attempts;
      var delay := 30_000;
      var i := 1;
      while i < attempts
        invariant 1 <= i <= attempts
        invariant delay == 30_000 * Power2(i - 1)
      {
        delay := 2 * delay;
        i := i + 1;
      }
      if delay > 3_600_000 { delay := 3_600_000; }
      var status := if attempts >= MAX_ATTEMPTS then Failed else Pending;
      rows := rows[id := Delivery(status, attempts, now + delay)];
    }

    /** deliverOne after its claim: the first of its four ends that applies. */
    method SettleDelivery(id: Id, enabled: bool, muted: bool, accepted: bool, now: int)
      requires id in rows && 1 <= rows[id].attempts <= MAX_ATTEMPTS
      modifies this
      ensures var outcome := if !enabled then TargetDisabled else if muted then AlarmMuted else if accepted then Accepted else Threw;
              rows == old(rows)[id := Finished(old(rows)[id], Flight(old(rows)[id].attempts, enabled && !muted), outcome, now)]
      ensures rows[id].status == if !enabled then Cancelled else if muted then Muted else if accepted then Sent
                                 else if old(rows)[id].attempts == 5 then Failed else Pending
    {
      if !enabled {
        rows := rows[id := rows[id].(status := Cancelled)];
        return;
      }
      if muted {
        rows := rows[id := rows[id].(status := Muted)];
        return;
      }
      if accepted {
        rows := rows[id := rows[id].(status := Sent)];
        return;
      }
      RecordFailure(id, now);
    }

    /** The two bulk patches at the start of a tick. */
    method RecoverInterrupted(now: int)
      modifies this
      ensures rows == map id | id in old(rows) :: Interrupted(old(rows)[id], now)
    {
      rows := map id | id in rows ::
        if rows[id].status == Sending && rows[id].nextAttemptAt <= now && rows[id].attempts >= MAX_ATTEMPTS
        then rows[id].(status := Failed) else rows[id];
      rows := map id | id in rows ::
        if rows[id].status == Sending && rows[id].nextAttemptAt <= now && rows[id].attempts < MAX_ATTEMPTS
        then rows[id].(status := Pending) else rows[id];
    }

    /** retry() on the row it read; the update is conditional on status and attempts. */
    method RetryDelivery(id: Id, seen: Delivery, now: int) returns (changed: bool)
      modifies this
      ensures changed <==> (seen.status == Failed || seen.status == Pending || seen.status == Muted) && id in old(rows)
                           && old(rows)[id].status == seen.status && old(rows)[id].attempts == seen.attempts
      ensures rows == if changed then old(rows)[id := Delivery(Pending, 0, now)] else old(rows)
    {
      if seen.status != Failed && seen.status != Pending && seen.status != Muted { return false; }
      if id !in rows || rows[id].status != seen.status || rows[id].attempts != seen.attempts { return false; }
      rows := rows[id := Delivery(Pending, 0, now)];
      return true;
    }
  }
}
