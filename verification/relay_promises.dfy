/** What the upload relay promises its clients and its origin, over every run with crashes and I/O errors. */
module RelayPromises {
  import opened Wrappers
  import opened RelayTypes
  import opened RelayProtocol
  import opened RelaySafety
  import opened RelaySteps
  import opened RelayRuns

  // ---------- At most one origin request per explicit request ----------

  predicate IsRequest(o: Observation) { o.Requested? }

  predicate IsOriginRequest(o: Observation) { o.Dispatched? }

  function Count(log: seq<Observation>, u: Id, p: Observation -> bool): nat {
    if |log| == 0 then 0
    else Count(log[..|log| - 1], u, p) + if log[|log| - 1].upload == u && p(log[|log| - 1]) then 1 else 0
  }

  lemma NewTicket(log: seq<Observation>, o: Observation)
    requires AtMostOnce(log) && forall k | 0 <= k < |log| && log[k].upload == o.upload :: log[k].ticket < o.ticket
    ensures AtMostOnce(log + [o])
  {
  }

  lemma PerformAtMostOnce(s: Sys, u: Id)
    requires Inv(s) && u in s.held && AtMostOnce(s.log)
    ensures u in s.disk && u in s.accepted && |s.held[u].ops| > 0
    ensures AtMostOnce(Perform(s, u, s.held[u].ops[0]).log)
  {
    var op := s.held[u].ops[0];
    assert u in s.disk && u in s.accepted && |s.held[u].ops| > 0;
    if op.PutMeta? && s.disk[u].meta.Some? && op.meta.requests > s.disk[u].meta.value.requests {
      var log, o := s.log, Requested(u, op.meta.requests, op.meta.config.fingerprint);
      assert forall k | 0 <= k < |log| && log[k].upload == u :: log[k].ticket <= s.disk[u].meta.value.requests by {
        hide DiskInv, HeldInv, RunInv;
        assert forall k | 0 <= k < |log| :: log[k] in log;
      }
      hide Inv, DiskInv, HeldInv, RunInv, TicketInv;
      NewTicket(log, o);
    }
  }

  lemma DispatchAtMostOnce(s: Sys, f: nat, config: Option<Config>)
    requires TicketInv(s) && AtMostOnce(s.log)
    ensures AtMostOnce(RecheckStep(s, f, config).log)
  {
  }

  lemma WriteLog(s: Sys, u: Id)
    ensures WriteStep(s, u).log == s.log
         || (u in s.held && u in s.disk && u in s.accepted && s.held[u].ops != []
             && WriteStep(s, u).log == Perform(s, u, s.held[u].ops[0]).log)
  {
  }

  lemma SyncFailsLog(s: Sys, u: Id)
    ensures SyncFailsStep(s, u).log == s.log
         || (u in s.held && u in s.disk && u in s.accepted && s.held[u].ops != []
             && SyncFailsStep(s, u).log == Perform(s, u, s.held[u].ops[0]).log)
  {
  }

  /** Only four steps write history; the others keep the log. */
  lemma LogSteps(s: Sys, e: Event)
    ensures !e.Write? && !e.SyncFails? && !e.Recheck? && !e.Settle? ==> Next(s, e).log == s.log
  {
  }

  lemma AcceptedKeepsAtMostOnce(log: seq<Observation>, o: Observation)
    requires AtMostOnce(log) && o.Accepted?
    ensures AtMostOnce(log + [o])
  {
  }

  lemma NextAtMostOnce(s: Sys, e: Event)
    requires Inv(s) && AtMostOnce(s.log)
    ensures AtMostOnce(Next(s, e).log)
  {
    hide DiskInv, HeldInv, RunInv, TicketInv, AtMostOnce, WriteStep, SyncFailsStep, RecheckStep;
    LogSteps(s, e);
    match e
    case Write(u) =>
      WriteLog(s, u);
      if WriteStep(s, u).log != s.log {
        PerformAtMostOnce(s, u);
      }
    case SyncFails(u) =>
      SyncFailsLog(s, u);
      if SyncFailsStep(s, u).log != s.log {
        PerformAtMostOnce(s, u);
      }
    case Recheck(f, config) =>
      DispatchAtMostOnce(s, f, config);
    case Settle(f, ok) =>
      if SettleStep(s, f, ok).log != s.log {
        AcceptedKeepsAtMostOnce(s.log, SettleStep(s, f, ok).log[|s.log|]);
      }
    case _ =>
  }

  /**
   * Every origin request serves an explicit client request made earlier, to the origin and policy
   * configured at that request, and no client request is served twice.
   */
  lemma {:induction false} EveryDispatchHasItsOwnRequest(maxPendingBytes: nat, events: seq<Event>)
    ensures var log := Run(Init(maxPendingBytes), events).log;
            && AtMostOnce(log)
            && (forall o | o in log && o.Dispatched? :: Requested(o.upload, o.ticket, o.fingerprint) in log)
            && (forall o | o in log && o.Accepted? :: Dispatched(o.upload, o.ticket, o.fingerprint) in log)
    decreases |events|
  {
    RunKeepsInv(maxPendingBytes, events);
    if |events| > 0 {
      var before := Run(Init(maxPendingBytes), events[..|events| - 1]);
      EveryDispatchHasItsOwnRequest(maxPendingBytes, events[..|events| - 1]);
      RunKeepsInv(maxPendingBytes, events[..|events| - 1]);
      hide DiskInv, HeldInv, RunInv;
      NextAtMostOnce(before, events[|events| - 1]);
    }
  }

  function Tickets(log: seq<Observation>, u: Id, p: Observation -> bool): set<nat> {
    set o | o in log && o.upload == u && p(o) :: o.ticket
  }

  lemma {:induction false} CountTickets(log: seq<Observation>, u: Id, p: Observation -> bool)
    requires forall i, j | 0 <= i < j < |log| && log[i].upload == log[j].upload && log[i].ticket == log[j].ticket ::
               !(p(log[i]) && p(log[j]))
    ensures Count(log, u, p) == |Tickets(log, u, p)|
    decreases |log|
  {
    if |log| > 0 {
      var front, last := log[..|log| - 1], log[|log| - 1];
      CountTickets(front, u, p);
      if last.upload == u && p(last) {
        assert last.ticket !in Tickets(front, u, p);
        assert Tickets(log, u, p) == Tickets(front, u, p) + {last.ticket};
      } else {
        assert Tickets(log, u, p) == Tickets(front, u, p);
      }
    }
  }

  lemma SubsetSize(a: set<nat>, b: set<nat>)
    requires a <= b
    ensures |a| <= |b|
  {
    if a != {} {
      var x :| x in a;
      SubsetSize(a - {x}, b - {x});
    }
  }

  /** In numbers: an upload never causes more origin requests than its clients made requests. */
  lemma {:induction false} DispatchesNeverExceedRequests(maxPendingBytes: nat, events: seq<Event>, u: Id)
    ensures var log := Run(Init(maxPendingBytes), events).log;
            Count(log, u, IsOriginRequest) <= Count(log, u, IsRequest)
  {
    var log := Run(Init(maxPendingBytes), events).log;
    EveryDispatchHasItsOwnRequest(maxPendingBytes, events);
    hide Run;
    CountTickets(log, u, IsOriginRequest);
    CountTickets(log, u, IsRequest);
    assert Tickets(log, u, IsOriginRequest) <= Tickets(log, u, IsRequest) by {
      forall t | t in Tickets(log, u, IsOriginRequest) ensures t in Tickets(log, u, IsRequest) {
        var o :| o in log && o.upload == u && IsOriginRequest(o) && o.ticket == t;
        assert Requested(u, t, o.fingerprint) in log && IsRequest(Requested(u, t, o.fingerprint));
      }
    }
    SubsetSize(Tickets(log, u, IsOriginRequest), Tickets(log, u, IsRequest));
  }

  // ---------- A transfer interrupted by a crash is never replayed automatically ----------

  predicate ExplicitRequest(e: Event, u: Id) {
    (e.Append? && e.upload == u) || (e.Finalize? && e.upload == u)
  }

  /** Nothing in this state, volatile or planned, can dispatch the upload again. */
  ghost predicate Inert(s: Sys, u: Id) {
    && u in s.disk
    && (s.disk[u].meta.Some? ==>
          var state := s.disk[u].meta.value.state; !state.Queued? && !state.Uploading?)
    && (forall f | f in s.running && s.running[f].upload == u :: !Leaseholder(s.running[f]))
    && (u in s.held ==>
          && !s.held[u].then_.Grant?
          && forall i | 0 <= i < |s.held[u].ops| && s.held[u].ops[i].PutMeta? ::
               var state := s.held[u].ops[i].meta.state; !state.Queued? && !state.Uploading?)
  }

  ghost predicate NoNewDispatch(s: Sys, s': Sys, u: Id) {
    forall o | o in s'.log && o.upload == u && o.Dispatched? :: o in s.log
  }

  /** Steps on other uploads, and steps that only drop things, cannot revive an inert upload. */
  lemma InertFrame(s: Sys, s': Sys, u: Id)
    requires Inert(s, u) && u in s'.disk
    requires s'.disk[u].meta == s.disk[u].meta || s'.disk[u].meta.None?
    requires u in s'.held ==> u in s.held && s'.held[u] == s.held[u]
    requires forall f | f in s'.running && s'.running[f].upload == u ::
               (f in s.running && s.running[f].upload == u && s'.running[f] == s.running[f]) || !Leaseholder(s'.running[f])
    ensures Inert(s', u)
  {
  }

  ghost predicate InertOps(ops: seq<DiskOp>) {
    forall i | 0 <= i < |ops| && ops[i].PutMeta? ::
      var state := ops[i].meta.state; !state.Queued? && !state.Uploading?
  }

  lemma InertBegin(s: Sys, u: Id, v: Id, plan: Plan)
    requires Inert(s, u)
    requires v == u ==> InertOps(plan.ops) && !plan.then_.Grant?
    requires plan.ops == [] ==> !plan.then_.Grant?
    ensures Inert(Begin(s, v, plan), u) && Begin(s, v, plan).log == s.log
  {
    if v != u || plan.ops == [] {
      InertFrame(s, Begin(s, v, plan), u);
    }
  }

  lemma InertWriteOther(s: Sys, u: Id, v: Id)
    requires HeldInv(s) && Inert(s, u) && v != u
    ensures Inert(WriteStep(s, v), u)
  {
    if v in s.held && s.held[v].then_.Grant? {
      assert Granting(s, v, s.held[v], s.held[v].then_.finalizer, s.held[v].then_.granted);
    }
    hide HeldInv, Inert, Granting;
    InertFrame(s, WriteStep(s, v), u);
  }

  lemma InertWriteOwn(s: Sys, u: Id)
    requires Inert(s, u)
    ensures Inert(WriteStep(s, u), u)
  {
    if u in s.held && |s.held[u].ops| > 0 {
      var ops := s.held[u].ops;
      assert forall i | 0 <= i < |ops[1..]| :: ops[1..][i] == ops[i + 1];
    }
  }

  lemma WriteDispatchesNothing(s: Sys, u: Id, v: Id)
    ensures NoNewDispatch(s, WriteStep(s, v), u)
  {
    WriteLog(s, v);
    hide WriteStep;
  }

  lemma InertPrepare(s: Sys, u: Id, f: nat, config: Option<Config>)
    requires Inert(s, u)
    ensures Inert(PrepareStep(s, f, config), u) && PrepareStep(s, f, config).log == s.log
  {
    if f in s.running && s.running[f].pc.Starting? && Free(s, s.running[f].upload) {
      var v := s.running[f].upload;
      var ready := Lock(s, f).(nextLease := s.nextLease + 1);
      InertFrame(s, ready, u);
      hide Inert, Loadable;
      var plan := PreparePlan(s.disk[v], config, f, s.nextLease);
      assert v == u ==> plan.ops == [] by { InertState(s, u); }
      InertBegin(ready, u, v, plan);
    }
  }

  lemma InertState(s: Sys, u: Id)
    requires Inert(s, u)
    ensures u in s.disk
    ensures s.disk[u].meta.Some? ==> !s.disk[u].meta.value.state.Queued? && !s.disk[u].meta.value.state.Uploading?
  {
  }

  /** The finalizer owns another upload, since an inert upload has no leaseholder. */
  lemma InertSettle(s: Sys, u: Id, f: nat, failure: Option<FailureCode>)
    requires Inert(s, u) && f in s.running && Leaseholder(s.running[f]) && s.running[f].upload in s.disk
    ensures s.running[f].upload != u
    ensures var v := s.running[f].upload;
            var after := Begin(Lock(s, f), v, SettlePlan(s.disk[v], f, s.running[f].pc.meta.lease, failure));
            Inert(after, u) && after.log == s.log
  {
    var v := s.running[f].upload;
    assert v != u;
    InertFrame(s, Lock(s, f), u);
    hide Inert, Loadable;
    InertBegin(Lock(s, f), u, v, SettlePlan(s.disk[v], f, s.running[f].pc.meta.lease, failure));
  }

  lemma InertRecheck(s: Sys, u: Id, f: nat, config: Option<Config>)
    requires Inert(s, u)
    ensures Inert(RecheckStep(s, f, config), u) && NoNewDispatch(s, RecheckStep(s, f, config), u)
  {
    if RecheckStep(s, f, config) != s {
      var code := if config.None? then RelayDisabled else ConfigurationChanged;
      InertSettle(s, u, f, Some(code));
      if config.Some? && config.value.fingerprint == s.running[f].pc.meta.config.fingerprint {
        InertFrame(s, RecheckStep(s, f, config), u);
      }
    }
  }

  lemma InertSettleStep(s: Sys, u: Id, f: nat, ok: bool)
    requires Inert(s, u)
    ensures Inert(SettleStep(s, f, ok), u) && NoNewDispatch(s, SettleStep(s, f, ok), u)
  {
    if f in s.running && Leaseholder(s.running[f]) && Free(s, s.running[f].upload) {
      var m := s.running[f].pc.meta;
      var observed := if ok then s.(log := s.log + [Accepted(s.running[f].upload, m.requests, m.config.fingerprint)]) else s;
      InertFrame(s, observed, u);
      hide Inert;
      InertSettle(observed, u, f, if ok then None else Some(OriginRejected));
    }
  }

  lemma InertStartRead(s: Sys, u: Id, f: nat)
    requires Inert(s, u)
    ensures Inert(StartStep(s), u) && StartStep(s).log == s.log
    ensures Inert(ReadChunkStep(s, f), u) && ReadChunkStep(s, f).log == s.log
  {
    InertFrame(s, StartStep(s), u);
    InertFrame(s, ReadChunkStep(s, f), u);
  }

  lemma InertFaults(s: Sys, u: Id, e: Event)
    requires Inert(s, u)
    requires e.PartialDelete? || e.SweepFails? || e.IoError? || e.ReadFails? || e.Crash?
    ensures Inert(Next(s, e), u) && Next(s, e).log == s.log
  {
    if !(e.SweepFails? && e.upload == u) && !(e.PartialDelete? && e.upload == u) {
      InertFrame(s, Next(s, e), u);
    }
  }

  lemma InertSyncFails(s: Sys, u: Id, v: Id)
    requires Inert(s, u)
    ensures Inert(SyncFailsStep(s, v), u) && NoNewDispatch(s, SyncFailsStep(s, v), u)
  {
    if v != u {
      hide Inert;
      InertFrame(s, SyncFailsStep(s, v), u);
    }
  }

  lemma InertCreate(s: Sys, u: Id, e: Event)
    requires DiskInv(s) && Inert(s, u)
    requires e.CreateBegin? || e.CreateScan? || e.CreateEnd? || e.CreateFail?
    ensures Inert(Next(s, e), u) && Next(s, e).log == s.log
  {
    assert s.nextUpload !in s.disk && u in s.disk;
    CreateChanges(s, e);
    hide DiskInv, Inert, Next;
    InertFrame(s, Next(s, e), u);
  }

  lemma InertClient(s: Sys, u: Id, e: Event)
    requires Inert(s, u) && !ExplicitRequest(e, u)
    requires e.Append? || e.Finalize? || e.Delete? || e.Expire? || e.Recover?
    ensures Inert(Next(s, e), u) && Next(s, e).log == s.log
  {
    InertState(s, u);
    hide Inert, Loadable;
    var v := e.upload;
    if Free(s, v) {
      match e
      case Append(_, config, offset, length, data, headers) =>
        if LoadMetadata(s.disk[v]).Some? {
          var plan := AppendPlan(s.disk[v].meta.value, config, offset, length, data, headers);
          if plan.Ok? { InertBegin(s, u, v, plan.value); }
        }
      case Finalize(_, config, headers) =>
        if LoadMetadata(s.disk[v]).Some? {
          var plan := FinalizePlan(s.disk[v].meta.value, config, headers);
          if plan.Ok? { InertBegin(s, u, v, plan.value); }
        }
      case Delete(_) =>
        if LoadMetadata(s.disk[v]).Some? { InertBegin(s, u, v, RemovePlan(s.disk[v].meta.value)); }
      case Expire(_, now) => InertBegin(s, u, v, ExpirePlan(s.disk[v], now));
      case Recover(_) => InertBegin(s, u, v, RecoverPlan(s.disk[v]));
    }
  }

  lemma InertNext(s: Sys, u: Id, e: Event)
    requires Inv(s) && Inert(s, u) && !ExplicitRequest(e, u)
    ensures Inert(Next(s, e), u) && NoNewDispatch(s, Next(s, e), u)
  {
    hide DiskInv, HeldInv, RunInv, TicketInv, Inert;
    match e
    case Write(v) =>
      if v == u { InertWriteOwn(s, u); } else { InertWriteOther(s, u, v); }
      WriteDispatchesNothing(s, u, v);
    case SyncFails(v) => InertSyncFails(s, u, v);
    case Prepare(f, config) => InertPrepare(s, u, f, config);
    case Recheck(f, config) => InertRecheck(s, u, f, config);
    case Settle(f, ok) => InertSettleStep(s, u, f, ok);
    case ReadChunk(f) => InertStartRead(s, u, f);
    case StartFinalizer => InertStartRead(s, u, 0);
    case _ =>
      if e.PartialDelete? || e.SweepFails? || e.IoError? || e.ReadFails? || e.Crash? { InertFaults(s, u, e); }
      else if e.CreateBegin? || e.CreateScan? || e.CreateEnd? || e.CreateFail? { InertCreate(s, u, e); }
      else { InertClient(s, u, e); }
  }

  lemma {:induction false} InertRun(s: Sys, u: Id, events: seq<Event>)
    requires Inv(s) && Inert(s, u)
    requires forall e | e in events :: !ExplicitRequest(e, u)
    ensures Inv(Run(s, events)) && Inert(Run(s, events), u) && NoNewDispatch(s, Run(s, events), u)
    decreases |events|
  {
    hide Inv, Inert;
    if |events| > 0 {
      var e := events[|events| - 1];
      var before := Run(s, events[..|events| - 1]);
      InertRun(s, u, events[..|events| - 1]);
      NextInv(before, e);
      InertNext(before, u, e);
    }
  }

  /**
   * An upload found in `Forwarding` after a crash causes no further origin request, however long the
   * relay runs, recovers, expires and crashes again, until a client asks for it explicitly.
   */
  lemma {:induction false} InterruptedTransferIsNotReplayed(maxPendingBytes: nat, before: seq<Event>, after: seq<Event>, u: Id)
    requires var s := Run(Init(maxPendingBytes), before);
             u in s.disk && s.disk[u].meta.Some? && s.disk[u].meta.value.state.Forwarding?
    requires forall e | e in after :: !ExplicitRequest(e, u)
    ensures var crashed := Next(Run(Init(maxPendingBytes), before), Crash);
            NoNewDispatch(crashed, Run(crashed, after), u)
  {
    RunKeepsInv(maxPendingBytes, before);
    hide Inv, Run;
    var crashed := Next(Run(Init(maxPendingBytes), before), Crash);
    NextInv(Run(Init(maxPendingBytes), before), Crash);
    InertRun(crashed, u, after);
  }

  // ---------- Body, tiling and completion ----------

  /** Stored metadata always loads, its chunks tile the accepted bytes, and only an upload in progress is partial. */
  lemma {:induction false} ReachableUploads(maxPendingBytes: nat, events: seq<Event>, u: Id)
    requires u in Run(Init(maxPendingBytes), events).disk
    requires Run(Init(maxPendingBytes), events).disk[u].meta.Some?
    ensures var s := Run(Init(maxPendingBytes), events);
            var m := s.disk[u].meta.value;
            && LoadMetadata(s.disk[u]) == Some(m)
            && u in s.accepted && m.offset == |s.accepted[u]| <= m.length
            && TilesFrom(m.chunks, 0, m.length)
            && (TotalSize(m.chunks) == m.offset || (m.state.Completed? && m.chunks == []))
            && (!m.state.Uploading? ==> m.offset == m.length)
            && (m.state.Completed? ==> Accepted(u, m.requests, m.config.fingerprint) in s.log)
  {
    RunKeepsInv(maxPendingBytes, events);
    var s := Run(Init(maxPendingBytes), events);
    assert DirOk(s.disk[u], s.accepted[u]);
    hide HeldInv, RunInv, OpsOk;
  }

  /** What a finalizer has streamed is a prefix of the accepted bytes; a full stream is all of them. */
  lemma {:induction false} StreamedBody(maxPendingBytes: nat, events: seq<Event>, f: nat)
    requires var s := Run(Init(maxPendingBytes), events); f in s.running && s.running[f].pc.Sending?
    ensures var s := Run(Init(maxPendingBytes), events);
            var pc := s.running[f].pc;
            var u := s.running[f].upload;
            && u in s.accepted && |s.accepted[u]| == pc.meta.length
            && pc.body <= s.accepted[u]
            && pc.sent <= |pc.meta.chunks|
            && (pc.sent == |pc.meta.chunks| ==> pc.body == s.accepted[u])
  {
    RunKeepsInv(maxPendingBytes, events);
    var s := Run(Init(maxPendingBytes), events);
    var pc := s.running[f].pc;
    assert LeaseOk(s, s.running[f].upload, pc.meta);
    assert BodyOk(s.accepted[s.running[f].upload], pc.meta, pc.sent, pc.body);
    hide DiskInv, HeldInv, RunInv, TicketInv, OpsOk;
    if pc.sent == |pc.meta.chunks| {
      assert pc.meta.chunks[..pc.sent] == pc.meta.chunks;
    }
  }

  // ---------- Leases ----------

  /** At most one finalizer runs, and the upload it was granted still carries its lease. */
  ghost predicate LeaseCurrent(s: Sys) {
    && (forall f, g | f in s.running && g in s.running :: f == g)
    && (forall f | f in s.running && Leaseholder(s.running[f]) && s.running[f].upload in s.disk
                   && s.disk[s.running[f].upload].meta.Some? ::
          s.disk[s.running[f].upload].meta.value.lease == s.running[f].pc.meta.lease)
  }

  lemma LeaseFrame(s: Sys, s': Sys)
    requires LeaseCurrent(s)
    requires forall f | f in s'.running :: f in s.running
    requires forall f | f in s'.running && Leaseholder(s'.running[f]) ::
               Leaseholder(s.running[f]) && s'.running[f].upload == s.running[f].upload
               && s'.running[f].pc.meta == s.running[f].pc.meta
    requires forall f | f in s'.running && Leaseholder(s'.running[f]) && s'.running[f].upload in s'.disk ::
               var u := s'.running[f].upload;
               u in s.disk && (s'.disk[u].meta.None?
                 || (s.disk[u].meta.Some? && s'.disk[u].meta.value.lease == s.disk[u].meta.value.lease))
    ensures LeaseCurrent(s')
  {
  }

  lemma LeaseWriteFacts(s: Sys, u: Id)
    requires DiskInv(s) && HeldInv(s) && u in s.held
    ensures u in s.disk && u in s.accepted && |s.held[u].ops| > 0
    ensures s.held[u].then_.Grant? ==>
              s.held[u].then_.finalizer in s.running && s.running[s.held[u].then_.finalizer].upload == u
              && s.held[u].ops == [PutMeta(s.held[u].then_.granted, [])]
    ensures !s.held[u].then_.Grant? && s.held[u].ops[0].PutMeta? ==>
              s.disk[u].meta.Some? && s.held[u].ops[0].meta.lease == s.disk[u].meta.value.lease
  {
    if s.held[u].then_.Grant? {
      assert Granting(s, u, s.held[u], s.held[u].then_.finalizer, s.held[u].then_.granted);
    } else if s.held[u].ops[0].PutMeta? {
      HeldWrite(s, u);
      assert LeaseWritesGranted(s.held[u].ops, s.held[u].then_);
    }
  }

  /** A write changes a lease only for the finalizer that is then granted it, and no other one runs. */
  lemma LeaseWrite(s: Sys, u: Id)
    requires Inv(s) && LeaseCurrent(s)
    ensures LeaseCurrent(WriteStep(s, u))
  {
    hide DiskInv, HeldInv, RunInv, TicketInv;
    if u in s.held {
      LeaseWriteFacts(s, u);
      if s.held[u].then_.Grant? {
        assert forall f | f in s.running :: f == s.held[u].then_.finalizer;
      } else {
        LeaseFrame(s, WriteStep(s, u));
      }
    }
  }

  lemma LeaseStart(s: Sys)
    requires LeaseCurrent(s)
    ensures LeaseCurrent(StartStep(s))
  {
    if StartStep(s) != s {
      assert |s.running| == 0;
      assert s.running == map[];
    }
  }

  lemma LeaseFinalizer(s: Sys, e: Event)
    requires LeaseCurrent(s)
    requires e.Prepare? || e.Recheck? || e.ReadChunk? || e.Settle?
    ensures LeaseCurrent(Next(s, e))
  {
    hide LeaseCurrent, PrepareStep, RecheckStep, ReadChunkStep, SettleStep;
    match e
    case Prepare(f, config) => LeasePrepare(s, f, config);
    case Recheck(f, config) => LeaseRecheck(s, f, config);
    case ReadChunk(f) => LeaseRead(s, f);
    case Settle(f, ok) => LeaseSettle(s, f, ok);
  }

  lemma LeasePrepare(s: Sys, f: nat, config: Option<Config>)
    requires LeaseCurrent(s)
    ensures LeaseCurrent(PrepareStep(s, f, config))
  {
    hide Loadable, LeaseCurrent;
    if f in s.running && Free(s, s.running[f].upload) {
      var u := s.running[f].upload;
      var plan := PreparePlan(s.disk[u], config, f, s.nextLease);
      assert plan.then_.Grant? ==> plan.ops != [];
      hide PreparePlan;
      LeaseFrame(s, PrepareStep(s, f, config));
    }
  }

  lemma LeaseRecheck(s: Sys, f: nat, config: Option<Config>)
    requires LeaseCurrent(s)
    ensures LeaseCurrent(RecheckStep(s, f, config))
  {
    hide Loadable, LeaseCurrent, AllChunksPresent;
    LeaseFrame(s, RecheckStep(s, f, config));
  }

  lemma LeaseRead(s: Sys, f: nat)
    requires LeaseCurrent(s)
    ensures LeaseCurrent(ReadChunkStep(s, f))
  {
    hide Loadable, LeaseCurrent;
    LeaseFrame(s, ReadChunkStep(s, f));
  }

  lemma LeaseSettle(s: Sys, f: nat, ok: bool)
    requires LeaseCurrent(s)
    ensures LeaseCurrent(SettleStep(s, f, ok))
  {
    hide Loadable, LeaseCurrent;
    LeaseFrame(s, SettleStep(s, f, ok));
  }

  lemma LeaseFaults(s: Sys, e: Event)
    requires LeaseCurrent(s) && (e.PartialDelete? || e.SweepFails? || e.IoError? || e.ReadFails? || e.Crash?)
    ensures LeaseCurrent(Next(s, e))
  {
    hide LeaseCurrent;
    match e
    case PartialDelete(u, keepMeta, keepParts) => LeaseFrame(s, PartialDeleteStep(s, u, keepMeta, keepParts));
    case SweepFails(u) => LeaseFrame(s, SweepFailsStep(s, u));
    case IoError(u) => LeaseFrame(s, IoErrorStep(s, u));
    case ReadFails(f) => LeaseFrame(s, ReadFailsStep(s, f));
    case Crash => LeaseFrame(s, CrashStep(s));
  }

  lemma LeaseSyncFails(s: Sys, u: Id)
    requires Inv(s) && LeaseCurrent(s)
    ensures LeaseCurrent(SyncFailsStep(s, u))
  {
    hide DiskInv, HeldInv, RunInv, TicketInv;
    if u in s.held {
      LeaseWriteFacts(s, u);
      if s.held[u].then_.Grant? {
        assert forall f | f in s.running :: f == s.held[u].then_.finalizer;
      } else {
        LeaseFrame(s, SyncFailsStep(s, u));
      }
    }
  }

  lemma LeaseCreate(s: Sys, now: int)
    requires DiskInv(s) && RunInv(s) && LeaseCurrent(s)
    ensures LeaseCurrent(CreateEndStep(s, now))
  {
    assert forall f | f in s.running :: s.running[f].upload in s.disk;
    assert s.nextUpload !in s.disk;
    hide DiskInv, RunInv, LeaseCurrent;
    LeaseFrame(s, CreateEndStep(s, now));
  }

  lemma LeaseOther(s: Sys, e: Event)
    requires Inv(s) && LeaseCurrent(s)
    requires !(e.Prepare? || e.Recheck? || e.ReadChunk? || e.Settle? || e.Write? || e.SyncFails? || e.StartFinalizer?)
    ensures LeaseCurrent(Next(s, e))
  {
    hide DiskInv, HeldInv, RunInv, TicketInv, LeaseCurrent, Loadable;
    match e
    case CreateEnd(now) => LeaseCreate(s, now);
    case CreateBegin(length, config) => LeaseFrame(s, CreateBeginStep(s, length, config));
    case CreateScan(u) => LeaseFrame(s, CreateScanStep(s, u));
    case CreateFail => LeaseFrame(s, s.(creating := None));
    case _ =>
      if e.PartialDelete? || e.SweepFails? || e.IoError? || e.ReadFails? || e.Crash? {
        LeaseFaults(s, e);
      } else {
        PlainThen(s, e);
        LeaseSame(s, Next(s, e));
      }
  }

  lemma LeaseSame(s: Sys, s': Sys)
    requires LeaseCurrent(s) && s'.running == s.running && s'.disk == s.disk
    ensures LeaseCurrent(s')
  {
  }

  /** Client, expiry and recovery blocks grant nothing. */
  lemma PlainThen(s: Sys, e: Event)
    ensures e.Append? || e.Finalize? || e.Delete? || e.Expire? || e.Recover? ==>
              Next(s, e).running == s.running && Next(s, e).disk == s.disk
  {
    hide Loadable;
  }

  lemma LeaseNext(s: Sys, e: Event)
    requires Inv(s) && LeaseCurrent(s)
    ensures LeaseCurrent(Next(s, e))
  {
    hide Inv, LeaseCurrent, WriteStep, SyncFailsStep, StartStep;
    match e
    case Write(u) => LeaseWrite(s, u);
    case SyncFails(u) => LeaseSyncFails(s, u);
    case StartFinalizer => LeaseStart(s);
    case Prepare(_, _) => LeaseFinalizer(s, e);
    case Recheck(_, _) => LeaseFinalizer(s, e);
    case ReadChunk(_) => LeaseFinalizer(s, e);
    case Settle(_, _) => LeaseFinalizer(s, e);
    case _ => LeaseOther(s, e);
  }

  lemma {:induction false} LeaseRun(maxPendingBytes: nat, events: seq<Event>)
    ensures LeaseCurrent(Run(Init(maxPendingBytes), events))
    decreases |events|
  {
    if |events| > 0 {
      var e := events[|events| - 1];
      var before := Run(Init(maxPendingBytes), events[..|events| - 1]);
      LeaseRun(maxPendingBytes, events[..|events| - 1]);
      RunKeepsInv(maxPendingBytes, events[..|events| - 1]);
      hide Inv, LeaseCurrent, Next;
      LeaseNext(before, e);
    }
  }

  /**
   * The lease check alone does not protect a cancelled upload: a finalizer without the current lease
   * plans no write unless the upload is cancelled, and then it removes the directory.
   */
  lemma LeaseCheckExact(d: Dir, f: nat, lease: nat, failure: Option<FailureCode>)
    requires LoadMetadata(d).Some? && d.meta.value.lease != lease
    ensures SettlePlan(d, f, lease, failure).ops == [] <==> !d.meta.value.state.Cancelled?
    ensures d.meta.value.state.Cancelled? ==> SettlePlan(d, f, lease, failure).ops == [Remove]
  {
  }

  /**
   * With one finalizer at a time that case cannot arise: in every reachable state, whatever a
   * finalizer writes when it settles, it writes as the holder of the current lease.
   */
  lemma {:induction false} OnlyTheLeaseholderSettles(maxPendingBytes: nat, events: seq<Event>, f: nat, failure: Option<FailureCode>)
    requires var s := Run(Init(maxPendingBytes), events);
             f in s.running && Leaseholder(s.running[f]) && s.running[f].upload in s.disk
    ensures var s := Run(Init(maxPendingBytes), events);
            var d := s.disk[s.running[f].upload];
            var m := s.running[f].pc.meta;
            SettlePlan(d, f, m.lease, failure).ops != [] ==> d.meta.Some? && d.meta.value.lease == m.lease
  {
    LeaseRun(maxPendingBytes, events);
    hide Run, Loadable;
  }
}
