/** The remaining steps of the upload relay and the theorems about whole runs. */
module RelayRuns {
  import opened Wrappers
  import opened RelayTypes
  import opened RelayProtocol
  import opened RelaySafety
  import opened RelaySteps

  // ---------- Faults ----------

  lemma PartialDeleteInv(s: Sys, u: Id, keepMeta: bool, keepParts: set<nat>)
    requires Inv(s)
    ensures Inv(PartialDeleteStep(s, u, keepMeta, keepParts))
  {
    hide HeldInv, RunInv, TicketInv, DiskInv, BlockReady, PartialDeleteStep, Perform, OpsOk;
    var s' := PartialDeleteStep(s, u, keepMeta, keepParts);
    if s' != s {
      PartialDeleteBlock(s, u, keepMeta, keepParts);
      PartialDeleteHeld(s, s', u);
      RunFrame(s, s');
      TicketFrame(s, s');
    }
  }

  lemma PartialDeleteHeld(s: Sys, s': Sys, u: Id)
    requires HeldInv(s) && u in s.held && u in s'.disk && BlockReady(s', u, s.held[u])
    requires s' == s.(disk := s.disk[u := s'.disk[u]])
    ensures HeldInv(s')
  {
    hide HeldInv, BlockReady;
    forall v | v in s'.held ensures BlockReady(s', v, s'.held[v]) {
      if v != u { OtherInDisk(s, v); OtherBlockReady(s, s', v); }
    }
    HeldFromBlocks(s');
  }

  lemma OtherInDisk(s: Sys, v: Id)
    requires HeldInv(s) && v in s.held
    ensures v in s.disk
  {
  }

  lemma PartialDeleteBlock(s: Sys, u: Id, keepMeta: bool, keepParts: set<nat>)
    requires DiskInv(s) && HeldInv(s) && PartialDeleteStep(s, u, keepMeta, keepParts) != s
    ensures u in s.held && u in s.disk
    ensures var s' := PartialDeleteStep(s, u, keepMeta, keepParts);
            && DiskInv(s') && u in s'.disk && BlockReady(s', u, s.held[u])
            && s' == s.(disk := s.disk[u := s'.disk[u]])
            && (s'.disk[u].meta == s.disk[u].meta || s'.disk[u].meta.None?)
  {
    var s' := PartialDeleteStep(s, u, keepMeta, keepParts);
    PartialDeleteOk(s.disk[u], s'.disk[u], s.accepted[u], s.held[u].ops);
    assert CompletionsAccepted(s.log, u, s.held[u].ops);
    assert !s.held[u].then_.Grant?;
    hide OpsOk, LeaseOk;
  }

  lemma OtherBlockReady(s: Sys, s': Sys, v: Id)
    requires HeldInv(s) && v in s.held
    requires s' == s.(disk := s'.disk) && v in s'.disk && s'.disk[v] == s.disk[v]
    ensures BlockReady(s', v, s.held[v])
  {
    if s.held[v].then_.Grant? {
      assert Granting(s, v, s.held[v], s.held[v].then_.finalizer, s.held[v].then_.granted);
    }
  }

  lemma SweepFailsInv(s: Sys, u: Id)
    requires Inv(s)
    ensures Inv(SweepFailsStep(s, u))
  {
    if SweepFailsStep(s, u) != s {
      var block := SweepFailsBlock(s, u);
      hide HeldInv, RunInv, TicketInv, DiskInv, BlockReady;
      HoldInv(s, u, block);
    }
  }

  lemma SweepFailsBlock(s: Sys, u: Id) returns (block: Block)
    requires DiskInv(s) && HeldInv(s) && TicketInv(s) && SweepFailsStep(s, u) != s
    ensures SweepFailsStep(s, u) == s.(held := s.held[u := block]) && BlockReady(s, u, block)
  {
    hide DiskInv, HeldInv, TicketInv, DirOk, OpsOk, CompletionsAccepted, LeaseWritesGranted, Granting;
    block := SweepFailsStep(s, u).held[u];
    CompletedFacts(s, u);
    RescueWrite(s, u);
    SingleWriteOk(s.disk[u], s.accepted[u], block.ops[0].meta);
    SingleCompletion(s.log, u, block.ops[0].meta, block.then_);
    assert block.ops == [PutMeta(block.ops[0].meta, [])];
  }

  lemma SingleCompletion(log: seq<Observation>, u: Id, m: Metadata, then_: Then)
    requires m.state.Completed? && Accepted(u, m.requests, m.config.fingerprint) in log
    ensures CompletionsAccepted(log, u, [PutMeta(m, [])]) && LeaseWritesGranted([PutMeta(m, [])], then_)
  {
  }

  lemma RescueWrite(s: Sys, u: Id)
    requires DiskInv(s) && HeldInv(s) && TicketInv(s) && SweepFailsStep(s, u) != s
    ensures var now := s.disk[u].meta.value;
            var m := SweepFailsStep(s, u).held[u].ops[0].meta;
            && MetaStep(now, m) && MetaOk(m) && m.offset == now.offset && m.state.Completed?
            && Accepted(u, m.requests, m.config.fingerprint) in s.log
    ensures u in s.accepted && !s.held[u].then_.Grant?
    ensures s.held[u].then_.Retire? ==>
              var f := s.held[u].then_.finalizer;
              f in s.running && s.running[f].upload == u && s.running[f].pc.Locked?
  {
    CompletedFacts(s, u);
    assert !s.held[u].then_.Grant?;
    if s.held[u].ops[0].PutMeta? {
      HeldWrite(s, u);
    }
    hide OpsOk, TicketInv, CompletionsAccepted, LeaseWritesGranted;
  }

  lemma CompletedFacts(s: Sys, u: Id)
    requires DiskInv(s) && TicketInv(s) && u in s.disk
    requires s.disk[u].meta.Some? && s.disk[u].meta.value.state.Completed?
    ensures u in s.accepted && DirOk(s.disk[u], s.accepted[u]) && MetaOk(s.disk[u].meta.value)
    ensures var now := s.disk[u].meta.value; Accepted(u, now.requests, now.config.fingerprint) in s.log
  {
  }

  lemma BlockFinalizer(s: Sys, u: Id)
    requires HeldInv(s) && u in s.held
    ensures u in s.disk && u in s.accepted && |s.held[u].ops| > 0
    ensures s.held[u].then_.Grant? || s.held[u].then_.Retire? ==>
              s.held[u].then_.finalizer in s.running && s.running[s.held[u].then_.finalizer].upload == u
  {
    if s.held[u].then_.Grant? {
      assert Granting(s, u, s.held[u], s.held[u].then_.finalizer, s.held[u].then_.granted);
    }
  }

  lemma IoErrorInv(s: Sys, u: Id)
    requires Inv(s)
    ensures Inv(IoErrorStep(s, u))
  {
    if u in s.held {
      BlockFinalizer(s, u);
      hide HeldInv, RunInv, TicketInv, DiskInv;
      ReleaseLock(s, u);
      AbandonInv(s, u);
    }
  }

  lemma SyncFailsInv(s: Sys, u: Id)
    requires Inv(s)
    ensures Inv(SyncFailsStep(s, u))
  {
    if u in s.held {
      BlockFinalizer(s, u);
      hide HeldInv, RunInv, TicketInv, DiskInv;
      PerformInv(s, u, s.held - {u});
      assert SyncFailsStep(s, u) == Abandon(Perform(s, u, s.held[u].ops[0]), u);
      hide SyncFailsStep, Abandon, Apply, Observe;
      AbandonInv(Perform(s, u, s.held[u].ops[0]), u);
    }
  }

  lemma AbandonInv(s: Sys, u: Id)
    requires u in s.held && Inv(s.(held := s.held - {u}))
    requires s.held[u].then_.Grant? || s.held[u].then_.Retire? ==>
               s.held[u].then_.finalizer in s.running && s.running[s.held[u].then_.finalizer].upload == u
    ensures Inv(Abandon(s, u))
  {
    hide Inv;
    var released := s.(held := s.held - {u});
    match s.held[u].then_
    case Grant(f, _) => RetireInv(released, f);
    case Retire(f) => RetireInv(released, f);
    case _ =>
  }

  lemma ReadFailsInv(s: Sys, f: nat)
    requires Inv(s)
    ensures Inv(ReadFailsStep(s, f))
  {
    hide Inv;
    if f in s.running && Free(s, s.running[f].upload) { RetireInv(s, f); }
  }

  lemma CrashInv(s: Sys)
    requires Inv(s)
    ensures Inv(CrashStep(s))
  {
    hide HeldInv, RunInv, TicketInv;
    var s' := CrashStep(s);
    HeldFrame(s, s');
    RunFrame(s, s');
    TicketFrame(s, s');
  }

  // ---------- Creation ----------

  lemma CreateEndInv(s: Sys, now: int)
    requires Inv(s)
    ensures Inv(CreateEndStep(s, now))
  {
    hide HeldInv, RunInv, DiskInv, TicketInv;
    var s' := CreateEndStep(s, now);
    if s' == s.(creating := s'.creating) {
      SameInv(s, s');
    } else {
      CreateFresh(s);
      CreateDisk(s, now);
      CreateTicket(s, now);
      CreateHeld(s, now);
      RunFrame(s, s');
    }
  }

  lemma CreateFresh(s: Sys)
    requires DiskInv(s) && HeldInv(s)
    ensures s.nextUpload !in s.disk && s.nextUpload !in s.accepted
    ensures forall v | v in s.held :: v != s.nextUpload
  {
  }

  lemma CreateHeld(s: Sys, now: int)
    requires HeldInv(s) && forall v | v in s.held :: v != s.nextUpload
    ensures HeldInv(CreateEndStep(s, now))
  {
    forall v | v in s.held ensures BlockReady(CreateEndStep(s, now), v, s.held[v]) {
      assert BlockReady(s, v, s.held[v]);
      CreateBlock(s, now, v);
    }
    hide HeldInv, BlockReady;
    HeldFromBlocks(CreateEndStep(s, now));
  }

  lemma CreateDisk(s: Sys, now: int)
    requires DiskInv(s)
    ensures DiskInv(CreateEndStep(s, now))
  {
  }

  lemma CreateBlock(s: Sys, now: int, v: Id)
    requires v in s.held && BlockReady(s, v, s.held[v]) && v != s.nextUpload
    ensures BlockReady(CreateEndStep(s, now), v, s.held[v])
  {
  }

  lemma CreateTicket(s: Sys, now: int)
    requires TicketInv(s) && s.nextUpload !in s.disk
    ensures TicketInv(CreateEndStep(s, now))
  {
    var s' := CreateEndStep(s, now);
    CreateChanges(s, CreateEnd(now));
    assert s' == Next(s, CreateEnd(now));
    hide CreateEndStep, Next, TicketInv;
    if s'.disk == s.disk {
      TicketFrame(s, s');
    } else {
      TicketGrows(s, s');
    }
  }

  /** A blank upload under a new id has no tickets. */
  lemma TicketGrows(s: Sys, s': Sys)
    requires TicketInv(s) && s.nextUpload !in s.disk && s'.log == s.log && s'.running == s.running
    requires s'.disk.Keys == s.disk.Keys + {s.nextUpload} && forall u | u in s.disk :: s'.disk[u] == s.disk[u]
    requires s'.disk[s.nextUpload].meta.Some? && s'.disk[s.nextUpload].meta.value.state.Uploading?
    requires s'.disk[s.nextUpload].meta.value.requests == 0
    ensures TicketInv(s')
  {
  }

  /** Creating may add one blank upload and touches nothing else that is stored, held, queued or running. */
  lemma CreateChanges(s: Sys, e: Event)
    requires e.CreateBegin? || e.CreateScan? || e.CreateEnd? || e.CreateFail?
    ensures var s' := Next(s, e);
            && s' == s.(creating := s'.creating, disk := s'.disk, accepted := s'.accepted, nextUpload := s'.nextUpload)
            && (s'.disk == s.disk
                || (&& s'.disk.Keys == s.disk.Keys + {s.nextUpload}
                    && (forall u | u in s.disk && u != s.nextUpload :: s'.disk[u] == s.disk[u])
                    && s'.disk[s.nextUpload].meta.Some? && s'.disk[s.nextUpload].meta.value.state.Uploading?
                    && s'.disk[s.nextUpload].meta.value.requests == 0))
  {
    hide Pending;
    match e
    case CreateBegin(_, _) => hide CreateScanStep, CreateEndStep;
    case CreateScan(_) => hide CreateBeginStep, CreateEndStep;
    case CreateEnd(_) => hide CreateBeginStep, CreateScanStep;
    case CreateFail => hide CreateBeginStep, CreateScanStep, CreateEndStep;
  }

  // ---------- Client, expiry and recovery blocks ----------

  /** A block that no finalizer owns and that writes no lease. */
  lemma PlainBlockInv(s: Sys, u: Id, plan: Plan)
    requires Inv(s) && Free(s, u)
    requires OpsOk(s.disk[u], s.accepted[u], plan.ops)
    requires forall i | 0 <= i < |plan.ops| && plan.ops[i].PutMeta? ::
               !plan.ops[i].meta.state.Completed? && !plan.ops[i].meta.state.Forwarding?
    requires plan.then_.Nothing? || plan.then_.Enqueue?
    ensures Inv(Begin(s, u, plan))
  {
    assert u in s.accepted;
    assert plan.ops != [] ==> BlockReady(s, u, Block(plan.ops, plan.then_));
    hide HeldInv, RunInv, TicketInv, DiskInv, OpsOk;
    BeginInv(s, u, plan);
  }

  lemma StoredOk(s: Sys, u: Id)
    requires DiskInv(s) && u in s.disk
    ensures u in s.accepted && DirOk(s.disk[u], s.accepted[u])
    ensures LoadMetadata(s.disk[u]) == s.disk[u].meta
    ensures s.disk[u].meta.Some? ==> MetaOk(s.disk[u].meta.value)
  {
  }

  /** An append grants nothing and neither completes nor forwards. */
  lemma AppendShape(m: Metadata, config: Config, offset: int, length: int, data: Bytes, headers: Headers)
    requires MetaOk(m) && AppendPlan(m, config, offset, length, data, headers).Ok?
    ensures var plan := AppendPlan(m, config, offset, length, data, headers).value;
            && (plan.then_.Nothing? || plan.then_.Enqueue?)
            && forall i | 0 <= i < |plan.ops| && plan.ops[i].PutMeta? ::
                 !plan.ops[i].meta.state.Completed? && !plan.ops[i].meta.state.Forwarding?
  {
    hide Loadable;
  }

  lemma AppendInv(s: Sys, u: Id, config: Config, offset: int, length: int, data: Bytes, headers: Headers)
    requires Inv(s)
    ensures Inv(ClientStep(s, u, m => AppendPlan(m, config, offset, length, data, headers)))
  {
    if Free(s, u) && LoadMetadata(s.disk[u]).Some? {
      StoredOk(s, u);
      var m := s.disk[u].meta.value;
      var plan := AppendPlan(m, config, offset, length, data, headers);
      if plan.Ok? {
        AppendOk(s.disk[u], s.accepted[u], config, offset, length, data, headers);
        AppendShape(m, config, offset, length, data, headers);
        hide AppendPlan, MetaOk;
        hide HeldInv, RunInv, TicketInv, DiskInv, OpsOk, DirOk;
        PlainBlockInv(s, u, plan.value);
      }
    }
  }

  lemma FinalizeInv(s: Sys, u: Id, config: Config, headers: Headers)
    requires Inv(s)
    ensures Inv(ClientStep(s, u, m => FinalizePlan(m, config, headers)))
  {
    if Free(s, u) && LoadMetadata(s.disk[u]).Some? && FinalizePlan(s.disk[u].meta.value, config, headers).Ok? {
      StoredOk(s, u);
      RequeueOk(s.disk[u], s.accepted[u], config, headers);
      hide HeldInv, RunInv, TicketInv, DiskInv, OpsOk, DirOk;
      PlainBlockInv(s, u, QueuePlan(s.disk[u].meta.value, config, headers));
    }
  }

  lemma DeleteInv(s: Sys, u: Id)
    requires Inv(s)
    ensures Inv(ClientStep(s, u, m => Ok(RemovePlan(m))))
  {
    if Free(s, u) && LoadMetadata(s.disk[u]).Some? {
      StoredOk(s, u);
      var m := s.disk[u].meta.value;
      if m.state.Forwarding? {
        SingleWriteOk(s.disk[u], s.accepted[u], m.(state := Cancelled, failure := ClientCancelled));
      }
      hide HeldInv, RunInv, TicketInv, DiskInv, DirOk;
      PlainBlockInv(s, u, RemovePlan(m));
    }
  }

  lemma ExpireInv(s: Sys, u: Id, now: int)
    requires Inv(s) && Free(s, u)
    ensures Inv(Begin(s, u, ExpirePlan(s.disk[u], now)))
  {
    assert u in s.accepted;
    hide HeldInv, RunInv, TicketInv, DiskInv, DirOk;
    PlainBlockInv(s, u, ExpirePlan(s.disk[u], now));
  }

  lemma RecoverInv(s: Sys, u: Id)
    requires Inv(s) && Free(s, u)
    ensures Inv(Begin(s, u, RecoverPlan(s.disk[u])))
  {
    StoredOk(s, u);
    var plan := RecoverPlan(s.disk[u]);
    if plan.ops != [] && plan.ops[0].PutMeta? {
      SingleWriteOk(s.disk[u], s.accepted[u], plan.ops[0].meta);
    }
    hide HeldInv, RunInv, TicketInv, DiskInv, DirOk;
    PlainBlockInv(s, u, plan);
  }

  // ---------- Finalizer blocks ----------

  lemma NextIsNew(s: Sys)
    requires RunInv(s)
    ensures s.nextFinalizer !in s.running
  {
  }

  lemma StartInv(s: Sys)
    requires Inv(s)
    ensures Inv(StartStep(s))
  {
    hide HeldInv, RunInv, TicketInv, DiskInv;
    var s' := StartStep(s);
    if s' != s {
      NextIsNew(s);
      SameInv(s, s.(queue := s.queue[1..]));
      RunningInv(s.(queue := s.queue[1..]), s');
    }
  }

  /** A block owned by a finalizer, which stays locked until the block ends. */
  lemma OwnedBlockInv(s: Sys, f: nat, u: Id, plan: Plan)
    requires Inv(s) && Free(s, u)
    requires f in s.running && s.running[f].upload == u && s.running[f].pc.Locked?
    requires OpsOk(s.disk[u], s.accepted[u], plan.ops) && CompletionsAccepted(s.log, u, plan.ops)
    requires LeaseWritesGranted(plan.ops, plan.then_)
    requires plan.then_ == Retire(f) || (plan.then_.Grant? && plan.ops != [] &&
               Granting(s, u, Block(plan.ops, plan.then_), f, plan.then_.granted) && plan.then_.finalizer == f)
    ensures Inv(Begin(s, u, plan))
  {
    assert u in s.accepted;
    assert plan.ops != [] ==> BlockReady(s, u, Block(plan.ops, plan.then_));
    hide HeldInv, RunInv, TicketInv, DiskInv, OpsOk;
    BeginInv(s, u, plan);
  }

  lemma PrepareInv(s: Sys, f: nat, config: Option<Config>)
    requires Inv(s)
    ensures Inv(PrepareStep(s, f, config))
  {
    hide HeldInv, RunInv, TicketInv, DiskInv, Granting, OpsOk, CompletionsAccepted, LeaseWritesGranted, PreparePlan;
    if f in s.running && s.running[f].pc.Starting? && Free(s, s.running[f].upload) {
      var u := s.running[f].upload;
      var ready := Lock(s, f).(nextLease := s.nextLease + 1);
      PrepareLock(s, f);
      PreparePlanOk(ready, f, u, config);
      OwnedBlockInv(ready, f, u, PreparePlan(s.disk[u], config, f, s.nextLease));
    }
  }

  lemma PrepareLock(s: Sys, f: nat)
    requires Inv(s) && f in s.running && s.running[f].upload !in s.held
    ensures Inv(Lock(s, f).(nextLease := s.nextLease + 1))
    ensures forall g | g in s.running && Leaseholder(s.running[g]) :: s.running[g].pc.meta.lease < s.nextLease
  {
    forall g | g in s.running && Leaseholder(s.running[g]) ensures s.running[g].pc.meta.lease < s.nextLease {
      assert LeaseOk(s, s.running[g].upload, s.running[g].pc.meta);
    }
    hide HeldInv, TicketInv, DiskInv, LeaseOk;
    RunningInv(s, Lock(s, f).(nextLease := s.nextLease + 1));
  }

  lemma PreparePlanOk(s: Sys, f: nat, u: Id, config: Option<Config>)
    requires DiskInv(s) && u in s.disk && s.nextLease > 0
    requires f in s.running && s.running[f].upload == u && s.running[f].pc.Locked?
    requires forall g | g in s.running && Leaseholder(s.running[g]) :: s.running[g].pc.meta.lease < s.nextLease - 1
    ensures u in s.accepted
    ensures var plan := PreparePlan(s.disk[u], config, f, s.nextLease - 1);
            && OpsOk(s.disk[u], s.accepted[u], plan.ops) && CompletionsAccepted(s.log, u, plan.ops)
            && LeaseWritesGranted(plan.ops, plan.then_)
            && (plan.then_ == Retire(f) || (plan.then_.Grant? && plan.ops != [] && plan.then_.finalizer == f &&
                  Granting(s, u, Block(plan.ops, plan.then_), f, plan.then_.granted)))
  {
    StoredOk(s, u);
    var plan := PreparePlan(s.disk[u], config, f, s.nextLease - 1);
    if plan.ops != [] {
      SingleWriteOk(s.disk[u], s.accepted[u], plan.ops[0].meta);
    }
    hide DiskInv, OpsOk, DirOk;
  }

  /** The lease check: a transfer's result is recorded only for the request it was dispatched for. */
  lemma SettlePlanOk(s: Sys, f: nat, u: Id, m: Metadata, failure: Option<FailureCode>)
    requires DiskInv(s) && LeaseOk(s, u, m)
    requires failure.None? ==> Accepted(u, m.requests, m.config.fingerprint) in s.log
    ensures u in s.accepted
    ensures var plan := SettlePlan(s.disk[u], f, m.lease, failure);
            && OpsOk(s.disk[u], s.accepted[u], plan.ops) && CompletionsAccepted(s.log, u, plan.ops)
            && LeaseWritesGranted(plan.ops, plan.then_) && plan.then_ == Retire(f)
  {
    StoredOk(s, u);
    SettleOk(s.disk[u], s.accepted[u], f, m.lease, failure);
    hide DiskInv, OpsOk, DirOk;
  }

  lemma SettleBlockInv(s: Sys, f: nat, failure: Option<FailureCode>)
    requires Inv(s) && f in s.running && Leaseholder(s.running[f]) && Free(s, s.running[f].upload)
    requires failure.None? ==> Accepted(s.running[f].upload, s.running[f].pc.meta.requests, s.running[f].pc.meta.config.fingerprint) in s.log
    ensures var u := s.running[f].upload;
            Inv(Begin(Lock(s, f), u, SettlePlan(s.disk[u], f, s.running[f].pc.meta.lease, failure)))
  {
    var u := s.running[f].upload;
    var m := s.running[f].pc.meta;
    assert LeaseOk(s, u, m);
    SettlePlanOk(s, f, u, m, failure);
    hide HeldInv, RunInv, TicketInv, DiskInv, OpsOk, LeaseOk;
    LockInv(s, f);
    OwnedBlockInv(Lock(s, f), f, u, SettlePlan(s.disk[u], f, m.lease, failure));
  }

  lemma LogInvGrows(s: Sys, o: Observation)
    requires Inv(s) && o.Accepted? && o.upload in s.disk
    requires Dispatched(o.upload, o.ticket, o.fingerprint) in s.log
    requires s.disk[o.upload].meta.Some? ==> o.ticket <= s.disk[o.upload].meta.value.requests
    ensures Inv(s.(log := s.log + [o]))
  {
    hide HeldInv, RunInv, TicketInv;
    var s' := s.(log := s.log + [o]);
    AcceptedTicket(s, o);
    HeldFrame(s, s');
    RunFrame(s, s');
  }

  lemma AcceptedTicket(s: Sys, o: Observation)
    requires TicketInv(s) && o.Accepted? && o.upload in s.disk
    requires Dispatched(o.upload, o.ticket, o.fingerprint) in s.log
    requires s.disk[o.upload].meta.Some? ==> o.ticket <= s.disk[o.upload].meta.value.requests
    ensures TicketInv(s.(log := s.log + [o]))
  {
  }

  lemma SettleInv(s: Sys, f: nat, ok: bool)
    requires Inv(s)
    ensures Inv(SettleStep(s, f, ok))
  {
    if SettleStep(s, f, ok) != s && f in s.running && Leaseholder(s.running[f]) && Free(s, s.running[f].upload) {
      var u := s.running[f].upload;
      var m := s.running[f].pc.meta;
      assert LeaseOk(s, u, m);
      if ok {
        LogInvGrows(s, Accepted(u, m.requests, m.config.fingerprint));
        hide HeldInv, RunInv, TicketInv, DiskInv, LeaseOk;
        SettleBlockInv(s.(log := s.log + [Accepted(u, m.requests, m.config.fingerprint)]), f, None);
      } else {
        hide HeldInv, RunInv, TicketInv, DiskInv, LeaseOk;
        SettleBlockInv(s, f, Some(OriginRejected));
      }
    }
  }

  lemma DispatchHeld(s: Sys, f: nat, o: Observation)
    requires HeldInv(s) && f in s.running && s.running[f].pc.Holding?
    ensures HeldInv(s.(running := s.running[f := s.running[f].(pc := Sending(s.running[f].pc.meta, 0, []))],
                       log := s.log + [o]))
  {
    var s' := s.(running := s.running[f := s.running[f].(pc := Sending(s.running[f].pc.meta, 0, []))],
                 log := s.log + [o]);
    hide HeldInv;
    HeldFrame(s, s');
  }

  lemma DispatchRun(s: Sys, f: nat, o: Observation)
    requires RunInv(s) && f in s.running && s.running[f].pc.Holding?
    ensures RunInv(s.(running := s.running[f := s.running[f].(pc := Sending(s.running[f].pc.meta, 0, []))],
                      log := s.log + [o]))
  {
    var s' := s.(running := s.running[f := s.running[f].(pc := Sending(s.running[f].pc.meta, 0, []))],
                 log := s.log + [o]);
    forall g | g in s'.running && Leaseholder(s'.running[g])
      ensures LeaseOk(s', s'.running[g].upload, s'.running[g].pc.meta)
    {
      assert LeaseOk(s, s.running[g].upload, s.running[g].pc.meta);
    }
    assert LeaseOk(s, s.running[f].upload, s.running[f].pc.meta);
    hide LeaseOk;
  }

  lemma NotDispatchedSnoc(log: seq<Observation>, o: Observation, u: Id, ticket: nat)
    requires NotDispatched(log, u, ticket) && !IsDispatch(o, u, ticket)
    ensures NotDispatched(log + [o], u, ticket)
  {
  }

  lemma DispatchedLog(s: Sys, o: Observation)
    requires LogInv(s) && o.Dispatched? && o.upload in s.disk
    requires s.disk[o.upload].meta.Some? ==> o.ticket <= s.disk[o.upload].meta.value.requests
    requires Requested(o.upload, o.ticket, o.fingerprint) in s.log
    ensures forall running :: LogInv(s.(running := running, log := s.log + [o]))
  {
  }

  /** Dispatching the ticket a finalizer holds, which nobody else holds and no queued upload has. */
  lemma TicketDispatched(s: Sys, f: nat, m: Metadata)
    requires TicketInv(s) && f in s.running && s.running[f].pc == Holding(m) && s.running[f].upload in s.disk
    requires Requested(s.running[f].upload, m.requests, m.config.fingerprint) in s.log
    requires var d := s.disk[s.running[f].upload];
             d.meta.Some? ==> m.requests <= d.meta.value.requests && (d.meta.value.state.Queued? ==> m.requests < d.meta.value.requests)
    requires forall g | g in s.running && g != f && s.running[g].pc.Holding? && s.running[g].upload == s.running[f].upload ::
               s.running[g].pc.meta.requests != m.requests
    ensures TicketInv(s.(running := s.running[f := s.running[f].(pc := Sending(m, 0, []))],
                         log := s.log + [Dispatched(s.running[f].upload, m.requests, m.config.fingerprint)]))
  {
    var u, o := s.running[f].upload, Dispatched(s.running[f].upload, m.requests, m.config.fingerprint);
    forall v, ticket | NotDispatched(s.log, v, ticket) && !(v == u && ticket == m.requests)
      ensures NotDispatched(s.log + [o], v, ticket)
    {
      NotDispatchedSnoc(s.log, o, v, ticket);
    }
    assert forall g | g in s.running && s.running[g].pc.Holding? :: NotDispatched(s.log, s.running[g].upload, s.running[g].pc.meta.requests);
    DispatchedLog(s, o);
    hide NotDispatched, LogInv;
  }

  lemma DispatchTicket(s: Sys, f: nat)
    requires RunInv(s) && TicketInv(s) && f in s.running && s.running[f].pc.Holding?
    ensures var m := s.running[f].pc.meta;
            TicketInv(s.(running := s.running[f := s.running[f].(pc := Sending(m, 0, []))],
                         log := s.log + [Dispatched(s.running[f].upload, m.requests, m.config.fingerprint)]))
  {
    assert LeaseOk(s, s.running[f].upload, s.running[f].pc.meta);
    hide LeaseOk, RunInv;
    TicketDispatched(s, f, s.running[f].pc.meta);
  }

  lemma RecheckInv(s: Sys, f: nat, config: Option<Config>)
    requires Inv(s)
    ensures Inv(RecheckStep(s, f, config))
  {
    if RecheckStep(s, f, config) != s {
      var u := s.running[f].upload;
      var m := s.running[f].pc.meta;
      if config.Some? && config.value.fingerprint == m.config.fingerprint {
        DispatchTicket(s, f);
        hide HeldInv, RunInv, TicketInv;
        DispatchHeld(s, f, Dispatched(u, m.requests, m.config.fingerprint));
        DispatchRun(s, f, Dispatched(u, m.requests, m.config.fingerprint));
      } else {
        hide HeldInv, RunInv, TicketInv, DiskInv;
        SettleBlockInv(s, f, Some(if config.None? then RelayDisabled else ConfigurationChanged));
      }
    }
  }

  lemma ReadChunkBody(s: Sys, f: nat)
    requires DiskInv(s) && RunInv(s) && ReadChunkStep(s, f) != s
    ensures var pc := ReadChunkStep(s, f).running[f].pc;
            var u := s.running[f].upload;
            u in s.accepted && BodyOk(s.accepted[u], pc.meta, pc.sent, pc.body)
  {
    var u := s.running[f].upload;
    var pc := s.running[f].pc;
    assert LeaseOk(s, u, pc.meta) && BodyOk(s.accepted[u], pc.meta, pc.sent, pc.body);
    var chunk := pc.meta.chunks[pc.sent];
    TilesAt(pc.meta.chunks, 0, pc.meta.length, pc.sent);
    assert PartOk(s.accepted[u], chunk.offset, s.disk[u].parts[chunk.offset]);
    assert s.accepted[u][..chunk.offset] + s.accepted[u][chunk.offset..chunk.offset + chunk.size]
        == s.accepted[u][..chunk.offset + chunk.size];
  }

  lemma ReadChunkInv(s: Sys, f: nat)
    requires Inv(s)
    ensures Inv(ReadChunkStep(s, f))
  {
    hide HeldInv, RunInv, TicketInv, BodyOk;
    var s' := ReadChunkStep(s, f);
    if s' != s {
      ReadChunkBody(s, f);
      ReadChunkRun(s, s', f);
      HeldFrame(s, s');
      TicketFrame(s, s');
    }
  }

  lemma ReadChunkRun(s: Sys, s': Sys, f: nat)
    requires RunInv(s) && s' == ReadChunkStep(s, f) && s' != s && s.running[f].upload in s.accepted
    requires BodyOk(s.accepted[s.running[f].upload], s'.running[f].pc.meta, s'.running[f].pc.sent, s'.running[f].pc.body)
    ensures RunInv(s')
  {
    forall g | g in s'.running && Leaseholder(s'.running[g])
      ensures LeaseOk(s', s'.running[g].upload, s'.running[g].pc.meta)
    {
      assert LeaseOk(s, s.running[g].upload, s.running[g].pc.meta);
    }
    hide LeaseOk, BodyOk;
  }

  /** Client, expiry and recovery events, spelled out. */
  lemma NextClient(s: Sys, e: Event)
    requires e.Append? || e.Finalize? || e.Delete? || e.Expire? || e.Recover?
    ensures !Free(s, e.upload) ==> Next(s, e) == s
    ensures Free(s, e.upload) && e.Append? ==>
              Next(s, e) == if LoadMetadata(s.disk[e.upload]).None? then s
                else BeginChecked(s, e.upload, AppendPlan(s.disk[e.upload].meta.value, e.config, e.offset, e.contentLength, e.data, e.headers))
    ensures Free(s, e.upload) && e.Finalize? ==>
              Next(s, e) == if LoadMetadata(s.disk[e.upload]).None? then s
                else BeginChecked(s, e.upload, FinalizePlan(s.disk[e.upload].meta.value, e.config, e.headers))
    ensures Free(s, e.upload) && e.Delete? ==>
              Next(s, e) == if LoadMetadata(s.disk[e.upload]).None? then s
                else Begin(s, e.upload, RemovePlan(s.disk[e.upload].meta.value))
    ensures Free(s, e.upload) && e.Expire? ==> Next(s, e) == Begin(s, e.upload, ExpirePlan(s.disk[e.upload], e.now))
    ensures Free(s, e.upload) && e.Recover? ==> Next(s, e) == Begin(s, e.upload, RecoverPlan(s.disk[e.upload]))
  {
    hide Begin, AppendPlan, FinalizePlan, RemovePlan, ExpirePlan, RecoverPlan, Loadable;
  }

  // ---------- Every step, every run ----------

  lemma {:induction false} NextInv(s: Sys, e: Event)
    requires Inv(s)
    ensures Inv(Next(s, e))
  {
    hide Inv;
    match e
    case CreateBegin(length, config) => SameInv(s, Next(s, e));
    case CreateScan(u) => SameInv(s, Next(s, e));
    case CreateEnd(now) => CreateEndInv(s, now);
    case CreateFail => SameInv(s, Next(s, e));
    case Append(u, config, offset, length, data, headers) => AppendInv(s, u, config, offset, length, data, headers);
    case Finalize(u, config, headers) => FinalizeInv(s, u, config, headers);
    case Delete(u) => DeleteInv(s, u);
    case Expire(u, now) => if Free(s, u) { ExpireInv(s, u, now); }
    case Recover(u) => if Free(s, u) { RecoverInv(s, u); }
    case StartFinalizer => StartInv(s);
    case Prepare(f, config) => PrepareInv(s, f, config);
    case Recheck(f, config) => RecheckInv(s, f, config);
    case ReadChunk(f) => ReadChunkInv(s, f);
    case Settle(f, ok) => SettleInv(s, f, ok);
    case Write(u) => WriteInv(s, u);
    case PartialDelete(u, keepMeta, keepParts) => PartialDeleteInv(s, u, keepMeta, keepParts);
    case SyncFails(u) => SyncFailsInv(s, u);
    case SweepFails(u) => SweepFailsInv(s, u);
    case IoError(u) => IoErrorInv(s, u);
    case ReadFails(f) => ReadFailsInv(s, f);
    case Crash => CrashInv(s);
  }

  lemma {:induction false} RunKeepsInv(maxPendingBytes: nat, events: seq<Event>)
    ensures Inv(Run(Init(maxPendingBytes), events))
    decreases |events|
  {
    if |events| > 0 {
      RunKeepsInv(maxPendingBytes, events[..|events| - 1]);
      NextInv(Run(Init(maxPendingBytes), events[..|events| - 1]), events[|events| - 1]);
    }
  }
}
