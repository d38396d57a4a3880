/** Origin requests of an upload, bounded by the client calls of the run. */
module RelayRequests {
  import opened Wrappers
  import opened RelayTypes
  import opened RelayProtocol
  import opened RelaySafety
  import opened RelaySteps
  import opened RelayRuns
  import opened RelayPromises

  /** The client calls that may queue an upload. */
  function Calls(events: seq<Event>, u: Id): nat
    decreases |events|
  {
    if |events| == 0 then 0
    else Calls(events[..|events| - 1], u) + if ExplicitRequest(events[|events| - 1], u) then 1 else 0
  }

  /** The highest request number a plan writes, at least `least`. */
  function HighestRequest(ops: seq<DiskOp>, least: nat): nat {
    if |ops| == 0 then least
    else HighestRequest(ops[1..], if ops[0].PutMeta? && ops[0].meta.requests > least then ops[0].meta.requests else least)
  }

  /** Requests that the block holding the lock may still record. */
  function Outstanding(s: Sys, u: Id): nat {
    if u in s.held && u in s.disk && s.disk[u].meta.Some? then
      var now := s.disk[u].meta.value.requests;
      Max(0, HighestRequest(s.held[u].ops, now) - now)
    else 0
  }

  /** Requests recorded and outstanding. */
  function Claimed(s: Sys, u: Id): nat {
    Count(s.log, u, IsRequest) + Outstanding(s, u)
  }

  lemma {:induction false} HighestAtLeast(ops: seq<DiskOp>, least: nat)
    ensures HighestRequest(ops, least) >= least
  {
    if |ops| > 0 {
      HighestAtLeast(ops[1..], if ops[0].PutMeta? && ops[0].meta.requests > least then ops[0].meta.requests else least);
    }
  }

  lemma CountSnoc(log: seq<Observation>, o: Observation, u: Id, p: Observation -> bool)
    ensures Count(log + [o], u, p) == Count(log, u, p) + if o.upload == u && p(o) then 1 else 0
  {
    assert (log + [o])[..|log|] == log;
  }

  /** Recording a request uses up one of the outstanding ones. */
  lemma PerformBound(s: Sys, u: Id, v: Id)
    requires DiskInv(s) && HeldInv(s) && v in s.held
    ensures v in s.disk && v in s.accepted && |s.held[v].ops| > 0
    ensures var after := Perform(s, v, s.held[v].ops[0]);
            var rest := s.held[v].(ops := s.held[v].ops[1..]);
            && Count(after.log, u, IsRequest) + Outstanding(after.(held := after.held[v := rest]), u)
               <= Count(s.log, u, IsRequest) + Outstanding(s, u)
            && Count(after.log, u, IsRequest) <= Count(s.log, u, IsRequest) + Outstanding(s, u)
  {
    var op := s.held[v].ops[0];
    if op.PutMeta? { HeldWrite(s, v); }
    hide DiskInv, HeldInv, OpsOk, MetaOk;
    var now := s.disk[v].meta;
    if op.PutMeta? && op.meta.requests > now.value.requests {
      CountSnoc(s.log, Requested(v, op.meta.requests, op.meta.config.fingerprint), u, IsRequest);
      HighestAtLeast(s.held[v].ops[1..], op.meta.requests);
    }
  }

  lemma WriteBound(s: Sys, u: Id, v: Id)
    requires DiskInv(s) && HeldInv(s)
    ensures Claimed(WriteStep(s, v), u) <= Claimed(s, u) && Claimed(SyncFailsStep(s, v), u) <= Claimed(s, u)
  {
    if v in s.held && v in s.disk && v in s.accepted && s.held[v].ops != [] {
      PerformBound(s, u, v);
      hide DiskInv, HeldInv, HighestRequest, Count;
    }
  }

  /** Steps that plan no write for u, or drop what was planned. */
  lemma ClaimedFrame(s: Sys, s': Sys, u: Id)
    requires s'.log == s.log
    requires u in s'.held ==> u in s.held && s'.held[u] == s.held[u]
    requires u in s'.held && u in s'.disk && s'.disk[u].meta.Some? ==> u in s.disk && s'.disk[u].meta == s.disk[u].meta
    ensures Claimed(s', u) <= Claimed(s, u)
  {
  }

  /** Observations other than requests claim nothing. */
  lemma ClaimedLog(s: Sys, o: Observation, u: Id)
    requires !o.Requested?
    ensures Claimed(s.(log := s.log + [o]), u) == Claimed(s, u)
  {
    CountSnoc(s.log, o, u, IsRequest);
  }

  lemma BeginBound(s: Sys, u: Id, v: Id, plan: Plan, extra: nat)
    requires v in s.disk && v !in s.held
    requires s.disk[v].meta.Some? ==> HighestRequest(plan.ops, s.disk[v].meta.value.requests) <= s.disk[v].meta.value.requests + extra
    ensures Claimed(Begin(s, v, plan), u) <= Claimed(s, u) + if u == v then extra else 0
  {
    if u != v || plan.ops == [] {
      ClaimedFrame(s, Begin(s, v, plan), u);
    }
  }

  /** A client call queues at most once; no background block queues at all. */
  lemma QueueRequests(m: Metadata, config: Config, headers: Headers)
    ensures HighestRequest(QueuePlan(m, config, headers).ops, m.requests) <= m.requests + 1
  {
    hide ForwardedRequestHeaders;
    var ops := QueuePlan(m, config, headers).ops;
    if ops != [] { assert ops[1..] == []; }
  }

  lemma AppendRequests(m: Metadata, config: Config, offset: int, length: int, data: Bytes, headers: Headers)
    requires AppendPlan(m, config, offset, length, data, headers).Ok?
    ensures HighestRequest(AppendPlan(m, config, offset, length, data, headers).value.ops, m.requests) <= m.requests + 1
  {
    hide QueuePlan;
    QueueRequests(m, config, headers);
    if !IsFinalChunkRetry(m, offset, length) && length != 0 {
      var advanced := Advanced(m, length);
      var ops := AppendPlan(m, config, offset, length, data, headers).value.ops;
      var queue := if advanced.offset == advanced.length then QueuePlan(advanced, config, headers).ops else [];
      QueueRequests(advanced, config, headers);
      assert ops == [PutPart(m.offset, data), PutMeta(advanced, data)] + queue;
      var r := m.requests;
      assert ops[1..] == [PutMeta(advanced, data)] + queue && ops[1..][1..] == queue;
      assert HighestRequest(queue, r) <= r + 1;
      assert HighestRequest(ops[1..], r) == HighestRequest(queue, r);
      assert HighestRequest(ops, r) == HighestRequest(ops[1..], r);
    }
  }

  lemma BackgroundRequests(d: Dir, now: int, f: nat, lease: nat, config: Option<Config>, failure: Option<FailureCode>)
    requires d.meta.Some?
    ensures var r := d.meta.value.requests;
            && HighestRequest(RemovePlan(d.meta.value).ops, r) == r && HighestRequest(ExpirePlan(d, now).ops, r) == r
            && HighestRequest(RecoverPlan(d).ops, r) == r && HighestRequest(PreparePlan(d, config, f, lease).ops, r) == r
            && HighestRequest(SettlePlan(d, f, lease, failure).ops, r) == r
  {
    hide Loadable;
    var ops := SettlePlan(d, f, lease, failure).ops;
    var r := d.meta.value.requests;
    if |ops| == 3 {
      assert ops[2..][1..] == [] && ops[1..][1..] == ops[2..];
      assert HighestRequest(ops[2..], r) == r && HighestRequest(ops[1..], r) == r;
    } else if |ops| == 1 {
      assert ops[1..] == [];
    }
  }

  lemma ClientBound(s: Sys, e: Event, u: Id)
    requires e.Append? || e.Finalize? || e.Delete? || e.Expire? || e.Recover?
    ensures Claimed(Next(s, e), u) <= Claimed(s, u) + if ExplicitRequest(e, u) then 1 else 0
  {
    var v := e.upload;
    NextClient(s, e);
    hide Next, QueuePlan, RemovePlan, ExpirePlan, RecoverPlan, Loadable, HighestRequest, Claimed, Begin;
    if Free(s, v) {
      var d := s.disk[v];
      if d.meta.Some? { BackgroundRequests(d, if e.Expire? then e.now else 0, 0, 0, None, None); }
      match e
      case Append(_, config, offset, length, data, headers) =>
        if LoadMetadata(d).Some? && AppendPlan(d.meta.value, config, offset, length, data, headers).Ok? {
          AppendRequests(d.meta.value, config, offset, length, data, headers);
          hide AppendPlan;
          BeginBound(s, u, v, AppendPlan(d.meta.value, config, offset, length, data, headers).value, 1);
        }
      case Finalize(_, config, headers) =>
        if LoadMetadata(d).Some? {
          QueueRequests(d.meta.value, config, headers);
          BeginBound(s, u, v, QueuePlan(d.meta.value, config, headers), 1);
        }
      case Delete(_) => if LoadMetadata(d).Some? { BeginBound(s, u, v, RemovePlan(d.meta.value), 0); }
      case Expire(_, now) => BeginBound(s, u, v, ExpirePlan(d, now), 0);
      case Recover(_) => BeginBound(s, u, v, RecoverPlan(d), 0);
    }
  }

  lemma PrepareBound(s: Sys, u: Id, f: nat, config: Option<Config>)
    ensures Claimed(PrepareStep(s, f, config), u) <= Claimed(s, u)
  {
    if f in s.running && s.running[f].pc.Starting? && Free(s, s.running[f].upload) {
      var v := s.running[f].upload;
      var locked := Lock(s, f).(nextLease := s.nextLease + 1);
      if s.disk[v].meta.Some? { BackgroundRequests(s.disk[v], 0, f, s.nextLease, config, None); }
      hide PreparePlan, HighestRequest;
      ClaimedFrame(s, locked, u);
      BeginBound(locked, u, v, PreparePlan(s.disk[v], config, f, s.nextLease), 0);
    }
  }

  lemma SettleBound(s: Sys, u: Id, f: nat, failure: Option<FailureCode>)
    requires f in s.running && Leaseholder(s.running[f]) && Free(s, s.running[f].upload)
    ensures var v := s.running[f].upload;
            Claimed(Begin(Lock(s, f), v, SettlePlan(s.disk[v], f, s.running[f].pc.meta.lease, failure)), u) <= Claimed(s, u)
  {
    var v := s.running[f].upload;
    if s.disk[v].meta.Some? { BackgroundRequests(s.disk[v], 0, f, s.running[f].pc.meta.lease, None, failure); }
    hide SettlePlan, HighestRequest;
    ClaimedFrame(s, Lock(s, f), u);
    BeginBound(Lock(s, f), u, v, SettlePlan(s.disk[v], f, s.running[f].pc.meta.lease, failure), 0);
  }

  lemma RecheckBound(s: Sys, u: Id, f: nat, config: Option<Config>)
    ensures Claimed(RecheckStep(s, f, config), u) <= Claimed(s, u)
  {
    if f in s.running && s.running[f].pc.Holding? && s.running[f].upload in s.disk {
      var v, m := s.running[f].upload, s.running[f].pc.meta;
      if config.Some? && config.value.fingerprint == m.config.fingerprint {
        hide AllChunksPresent;
        var sending := s.(running := s.running[f := s.running[f].(pc := Sending(m, 0, []))]);
        ClaimedFrame(s, sending, u);
        ClaimedLog(sending, Dispatched(v, m.requests, config.value.fingerprint), u);
      } else if Free(s, v) {
        SettleBound(s, u, f, Some(if config.None? then RelayDisabled else ConfigurationChanged));
      }
      hide Claimed, Begin, SettlePlan;
    }
  }

  lemma SettleStepBound(s: Sys, u: Id, f: nat, ok: bool)
    ensures Claimed(SettleStep(s, f, ok), u) <= Claimed(s, u)
  {
    if && f in s.running && Free(s, s.running[f].upload)
       && (s.running[f].pc.Sending? || (s.running[f].pc.Holding? && !ok)) {
      var v, m := s.running[f].upload, s.running[f].pc.meta;
      var o := Accepted(v, m.requests, m.config.fingerprint);
      var observed := if ok then s.(log := s.log + [o]) else s;
      ClaimedLog(s, o, u);
      SettleBound(observed, u, f, if ok then None else Some(OriginRejected));
      hide Claimed, Begin, SettlePlan;
    }
  }

  lemma SingleRequest(ops: seq<DiskOp>, least: nat)
    requires |ops| == 1 && ops[0].PutMeta?
    ensures HighestRequest(ops, least) == Max(ops[0].meta.requests, least)
  {
    assert ops[1..] == [];
  }

  lemma FaultBound(s: Sys, e: Event, u: Id)
    requires e.PartialDelete? || e.SweepFails? || e.IoError? || e.ReadFails? || e.Crash?
    ensures Claimed(Next(s, e), u) <= Claimed(s, u)
  {
    if e.SweepFails? && e.upload == u && u in s.held && |s.held[u].ops| > 0 {
      var after := Next(s, e);
      if after.held[u].ops != s.held[u].ops {
        var now := s.disk[u].meta.value.requests;
        SingleRequest(after.held[u].ops, now);
        if s.held[u].ops[0].PutMeta? { SingleRequest(s.held[u].ops, now); }
        HighestAtLeast(s.held[u].ops, now);
      }
    } else {
      ClaimedFrame(s, Next(s, e), u);
    }
  }

  lemma CreateBound(s: Sys, e: Event, u: Id)
    requires DiskInv(s) && HeldInv(s) && (e.CreateBegin? || e.CreateScan? || e.CreateEnd? || e.CreateFail?)
    ensures Claimed(Next(s, e), u) <= Claimed(s, u)
  {
    CreateFresh(s);
    CreateChanges(s, e);
    hide DiskInv, HeldInv, Claimed, Next;
    ClaimedFrame(s, Next(s, e), u);
  }

  lemma NextBound(s: Sys, e: Event, u: Id)
    requires DiskInv(s) && HeldInv(s)
    ensures Claimed(Next(s, e), u) <= Claimed(s, u) + if ExplicitRequest(e, u) then 1 else 0
  {
    hide DiskInv, HeldInv, Claimed, WriteStep, SyncFailsStep, PrepareStep, RecheckStep, SettleStep, ReadChunkStep, StartStep;
    match e
    case Write(v) => WriteBound(s, u, v);
    case SyncFails(v) => WriteBound(s, u, v);
    case Prepare(f, config) => PrepareBound(s, u, f, config);
    case Recheck(f, config) => RecheckBound(s, u, f, config);
    case Settle(f, ok) => SettleStepBound(s, u, f, ok);
    case ReadChunk(f) => VolatileBound(s, u, f);
    case StartFinalizer => VolatileBound(s, u, 0);
    case _ =>
      if e.PartialDelete? || e.SweepFails? || e.IoError? || e.ReadFails? || e.Crash? { FaultBound(s, e, u); }
      else if e.CreateBegin? || e.CreateScan? || e.CreateEnd? || e.CreateFail? { CreateBound(s, e, u); }
      else { ClientBound(s, e, u); }
  }

  lemma VolatileBound(s: Sys, u: Id, f: nat)
    ensures Claimed(ReadChunkStep(s, f), u) <= Claimed(s, u) && Claimed(StartStep(s), u) <= Claimed(s, u)
  {
    ClaimedFrame(s, ReadChunkStep(s, f), u);
    ClaimedFrame(s, StartStep(s), u);
  }

  lemma {:induction false} RunBound(maxPendingBytes: nat, events: seq<Event>, u: Id)
    ensures Claimed(Run(Init(maxPendingBytes), events), u) <= Calls(events, u)
    decreases |events|
  {
    if |events| > 0 {
      var front := events[..|events| - 1];
      RunBound(maxPendingBytes, front, u);
      RunKeepsInv(maxPendingBytes, front);
      hide DiskInv, HeldInv, RunInv, TicketInv, Claimed, Next;
      NextBound(Run(Init(maxPendingBytes), front), events[|events| - 1], u);
    }
  }

  /** Over every run an upload causes no more origin requests than its clients made append and finalize calls. */
  lemma {:induction false} OriginRequestsNeverExceedCalls(maxPendingBytes: nat, events: seq<Event>, u: Id)
    ensures Count(Run(Init(maxPendingBytes), events).log, u, IsOriginRequest) <= Calls(events, u)
  {
    DispatchesNeverExceedRequests(maxPendingBytes, events, u);
    RunBound(maxPendingBytes, events, u);
    hide Run, Count, Outstanding;
  }
}
