/** Which failures make the relay forget a queued upload: otherwise it has a job or a finalizer. */
module RelayProgress {
  import opened Wrappers
  import opened RelayTypes
  import opened RelayProtocol
  import opened RelaySafety
  import opened RelaySteps
  import opened RelayRuns
  import opened RelayLeases

  predicate IsQueued(meta: Option<Metadata>) {
    meta.Some? && meta.value.state.Queued?
  }

  /** What the metadata will be once these writes are done. */
  function Finally(meta: Option<Metadata>, ops: seq<DiskOp>): Option<Metadata>
    decreases |ops|
  {
    if |ops| == 0 then meta
    else if ops[0].PutMeta? then Finally(Some(ops[0].meta), ops[1..])
    else Finally(if ops[0].Remove? then None else meta, ops[1..])
  }

  /** A queued job, or a finalizer that has not looked at the upload yet. */
  ghost predicate HasWorker(s: Sys, u: Id) {
    (exists i :: 0 <= i < |s.queue| && s.queue[i].upload == u)
    || (exists f :: f in s.running && s.running[f].upload == u && s.running[f].pc.Starting?)
  }

  /** A queued upload that nobody holds has a worker; a block that leaves it queued enqueues a job. */
  ghost predicate Served(s: Sys, u: Id) {
    u in s.disk ==>
      if u in s.held then IsQueued(Finally(s.disk[u].meta, s.held[u].ops)) ==> s.held[u].then_.Enqueue?
      else IsQueued(s.disk[u].meta) ==> HasWorker(s, u)
  }

  /** The failures that may hit upload u: a crash, or a failed write, sync or read of its own. */
  predicate Strikes(s: Sys, e: Event, u: Id) {
    || e.Crash?
    || ((e.IoError? || e.SyncFails?) && e.upload == u)
    || (e.ReadFails? && e.finalizer in s.running && s.running[e.finalizer].upload == u)
  }

  /** A job, or another finalizer than f that has not looked yet. */
  ghost predicate OtherWorker(s: Sys, u: Id, f: nat) {
    (exists i :: 0 <= i < |s.queue| && s.queue[i].upload == u)
    || (exists g :: g in s.running && g != f && s.running[g].upload == u && s.running[g].pc.Starting?)
  }

  /**
   * The steps after which a queued upload is left without a worker: a crash while it is stored as
   * queued, a failed write or sync that leaves it so, or a failed read by its last finalizer.
   */
  ghost predicate Forgets(s: Sys, e: Event, u: Id) {
    && u in s.disk
    && match e
       case Crash => IsQueued(s.disk[u].meta)
       case IoError(v) => v == u && u in s.held && IsQueued(s.disk[u].meta) && !HasWorker(s, u)
       case SyncFails(v) =>
         v == u && u in s.held && |s.held[u].ops| > 0 && IsQueued(Apply(s.disk[u], s.held[u].ops[0]).meta) && !HasWorker(s, u)
       case ReadFails(f) =>
         f in s.running && s.running[f].upload == u && s.running[f].pc.Starting? && u !in s.held
         && IsQueued(s.disk[u].meta) && !OtherWorker(s, u, f)
       case _ => false
  }

  ghost predicate KeepsWorkers(s: Sys, s': Sys, u: Id) {
    && (forall i | 0 <= i < |s.queue| && s.queue[i].upload == u :: HasWorker(s', u))
    && (forall f | f in s.running && s.running[f].upload == u && s.running[f].pc.Starting? :: HasWorker(s', u))
  }

  lemma SameWorkers(s: Sys, s': Sys, u: Id)
    requires s.queue <= s'.queue
    requires forall f | f in s.running && s.running[f].upload == u && s.running[f].pc.Starting? ::
               f in s'.running && s'.running[f] == s.running[f]
    ensures KeepsWorkers(s, s', u)
  {
    assert forall i | 0 <= i < |s.queue| :: s'.queue[i] == s.queue[i];
  }

  /** Steps that leave the upload and its block alone. */
  lemma ServedFrame(s: Sys, s': Sys, u: Id)
    requires Served(s, u) && KeepsWorkers(s, s', u)
    requires u in s'.disk ==> (u in s.disk && s'.disk[u].meta == s.disk[u].meta) || !IsQueued(s'.disk[u].meta)
    requires u in s'.disk ==> (u in s'.held <==> u in s.held)
    requires u in s'.disk && u in s'.held ==> u in s.disk && s'.disk[u].meta == s.disk[u].meta && s'.held[u] == s.held[u]
    ensures Served(s', u)
  {
    hide Finally;
  }

  /** A new block on a free upload, or nothing to write. */
  lemma BeginServed(s: Sys, u: Id, v: Id, plan: Plan)
    requires Served(s, u) && Free(s, v)
    requires plan.ops != [] && IsQueued(Finally(s.disk[v].meta, plan.ops)) ==> plan.then_.Enqueue?
    requires plan.ops == [] ==> plan.then_.Nothing? || plan.then_.Enqueue?
    ensures Served(Begin(s, v, plan), u)
  {
    hide Finally;
    if u != v || plan.ops == [] {
      SameWorkers(s, Begin(s, v, plan), u);
      ServedFrame(s, Begin(s, v, plan), u);
    }
  }

  /** The block of finalizer f, which is running but no longer waiting. */
  lemma FinalizerServed(s: Sys, s': Sys, u: Id, f: nat, plan: Plan)
    requires Served(s, u) && f in s.running && Free(s, s.running[f].upload)
    requires s' == Lock(s, f).(log := s'.log, nextLease := s'.nextLease)
    requires s.running[f].pc.Starting? && plan.ops == [] ==> !IsQueued(s.disk[s.running[f].upload].meta)
    requires plan.ops != [] ==> !IsQueued(Finally(s.disk[s.running[f].upload].meta, plan.ops))
    requires plan.then_ == Retire(f) || (plan.then_.Grant? && plan.ops != [])
    ensures Served(Begin(s', s.running[f].upload, plan), u)
  {
    hide Finally;
    var v := s.running[f].upload;
    var after := Begin(s', v, plan);
    if u != v || (plan.ops == [] && !s.running[f].pc.Starting?) {
      SameWorkers(s, after, u);
      ServedFrame(s, after, u);
    }
  }

  // ---------- Plans ----------

  lemma FinallySingle(meta: Option<Metadata>, op: DiskOp)
    ensures Finally(meta, [op]) == if op.PutMeta? then Some(op.meta) else if op.Remove? then None else meta
  {
    assert [op][1..] == [];
  }

  lemma {:induction false} FinallyConcat(meta: Option<Metadata>, a: seq<DiskOp>, b: seq<DiskOp>)
    ensures Finally(meta, a + b) == Finally(Finally(meta, a), b)
    decreases |a|
  {
    if |a| == 0 {
      assert a + b == b;
    } else {
      assert (a + b)[1..] == a[1..] + b && (a + b)[0] == a[0];
      FinallyConcat(if a[0].PutMeta? then Some(a[0].meta) else if a[0].Remove? then None else meta, a[1..], b);
    }
  }

  lemma QueueServes(m: Metadata, config: Config, headers: Headers)
    ensures var plan := QueuePlan(m, config, headers);
            if plan.ops == [] then plan.then_.Nothing? else plan.then_.Enqueue?
  {
  }

  lemma AppendServes(m: Metadata, config: Config, offset: int, length: int, data: Bytes, headers: Headers)
    requires MetaOk(m) && AppendPlan(m, config, offset, length, data, headers).Ok?
    ensures var plan := AppendPlan(m, config, offset, length, data, headers).value;
            && (plan.ops == [] ==> plan.then_.Nothing?)
            && (plan.ops != [] && IsQueued(Finally(Some(m), plan.ops)) ==> plan.then_.Enqueue?)
  {
    if !IsFinalChunkRetry(m, offset, length) && length != 0 {
      var advanced := Advanced(m, length);
      var writes := [PutPart(m.offset, data), PutMeta(advanced, data)];
      assert m.state.Uploading?;
      if advanced.offset != advanced.length {
        FinallyConcat(Some(m), [PutPart(m.offset, data)], [PutMeta(advanced, data)]);
        FinallySingle(Some(m), PutPart(m.offset, data));
        FinallySingle(Some(m), PutMeta(advanced, data));
        assert writes == [PutPart(m.offset, data)] + [PutMeta(advanced, data)];
      }
    }
  }

  lemma BackgroundServes(d: Dir, now: int, f: nat, lease: nat, config: Option<Config>, failure: Option<FailureCode>)
    ensures !IsQueued(Finally(d.meta, ExpirePlan(d, now).ops)) || ExpirePlan(d, now).ops == []
    ensures ExpirePlan(d, now).then_.Nothing?
    ensures RecoverPlan(d).ops == [] ==> RecoverPlan(d).then_.Nothing?
    ensures RecoverPlan(d).ops != [] && IsQueued(Finally(d.meta, RecoverPlan(d).ops)) ==> RecoverPlan(d).then_.Enqueue?
    ensures var plan := PreparePlan(d, config, f, lease);
            && (plan.ops != [] ==> !IsQueued(Finally(d.meta, plan.ops)))
            && (plan.ops == [] ==> LoadMetadata(d).None? || !IsQueued(d.meta))
            && (plan.then_ == Retire(f) || (plan.then_.Grant? && plan.ops != []))
    ensures var plan := SettlePlan(d, f, lease, failure);
            && (plan.ops != [] ==> !IsQueued(Finally(d.meta, plan.ops))) && plan.then_ == Retire(f)
  {
    hide Loadable;
    var recover, prepare, settle := RecoverPlan(d).ops, PreparePlan(d, config, f, lease).ops, SettlePlan(d, f, lease, failure).ops;
    if |recover| == 1 { assert recover == [recover[0]]; FinallySingle(d.meta, recover[0]); }
    if |prepare| == 1 { assert prepare == [prepare[0]]; FinallySingle(d.meta, prepare[0]); }
    if |settle| == 1 { assert settle == [settle[0]]; FinallySingle(d.meta, settle[0]); }
    if |settle| == 3 {
      assert settle == [settle[0], settle[1]] + [settle[2]];
      FinallyConcat(d.meta, [settle[0], settle[1]], [settle[2]]);
      FinallySingle(Finally(d.meta, [settle[0], settle[1]]), settle[2]);
    }
    FinallySingle(d.meta, Remove);
  }

  // ---------- Steps ----------

  lemma WriteServed(s: Sys, u: Id, v: Id)
    requires HeldInv(s) && Served(s, u)
    ensures Served(WriteStep(s, v), u)
  {
    if v in s.held {
      BlockFinalizer(s, v);
      assert s.held[v].then_.Retire? ==> s.running[s.held[v].then_.finalizer].pc.Locked?;
      assert s.held[v].then_.Grant? ==> s.running[s.held[v].then_.finalizer].pc.Locked? by {
        if s.held[v].then_.Grant? {
          assert Granting(s, v, s.held[v], s.held[v].then_.finalizer, s.held[v].then_.granted);
        }
      }
      hide HeldInv;
      var s' := WriteStep(s, v);
      if u != v {
        SameWorkers(s, s', u);
        ServedFrame(s, s', u);
      } else {
        OwnWriteServed(s, u);
      }
    }
  }

  lemma OwnWriteServed(s: Sys, u: Id)
    requires Served(s, u) && u in s.held && u in s.disk && u in s.accepted && |s.held[u].ops| > 0
    ensures Served(WriteStep(s, u), u)
  {
    var s' := WriteStep(s, u);
    var block := s.held[u];
    assert Apply(s.disk[u], block.ops[0]).meta == Finally(s.disk[u].meta, [block.ops[0]]) by { FinallySingle(s.disk[u].meta, block.ops[0]); }
    assert block.ops == [block.ops[0]] + block.ops[1..];
    FinallyConcat(s.disk[u].meta, [block.ops[0]], block.ops[1..]);
    hide Observe;
    if |block.ops| == 1 && block.then_.Enqueue? {
      assert s'.queue[|s.queue|].upload == u;
    }
  }

  lemma AppendEventServed(s: Sys, e: Event, u: Id)
    requires DiskInv(s) && Served(s, u) && e.Append? && Free(s, e.upload)
    ensures Served(Next(s, e), u)
  {
    hide Next, DiskInv, AppendPlan, Loadable, MetaOk, DirOk, Begin, Served, Finally;
    NextClient(s, e);
    var v := e.upload;
    StoredOk(s, v);
    if s.disk[v].meta.Some? {
      var m := s.disk[v].meta.value;
      var plan := AppendPlan(m, e.config, e.offset, e.contentLength, e.data, e.headers);
      if plan.Ok? {
        AppendServes(m, e.config, e.offset, e.contentLength, e.data, e.headers);
        BeginServed(s, u, v, plan.value);
      }
    }
  }

  lemma FinalizeEventServed(s: Sys, e: Event, u: Id)
    requires DiskInv(s) && Served(s, u) && e.Finalize? && Free(s, e.upload)
    ensures Served(Next(s, e), u)
  {
    hide Next, DiskInv, QueuePlan, Loadable, MetaOk, DirOk, Begin, Served, Finally;
    NextClient(s, e);
    StoredOk(s, e.upload);
    if s.disk[e.upload].meta.Some? {
      QueueServes(s.disk[e.upload].meta.value, e.config, e.headers);
      BeginServed(s, u, e.upload, QueuePlan(s.disk[e.upload].meta.value, e.config, e.headers));
    }
  }

  lemma ClientServed(s: Sys, e: Event, u: Id)
    requires DiskInv(s) && Served(s, u) && (e.Append? || e.Finalize? || e.Delete? || e.Expire? || e.Recover?)
    ensures Served(Next(s, e), u)
  {
    hide Next, DiskInv, ExpirePlan, RecoverPlan, PreparePlan, SettlePlan, Loadable, MetaOk, DirOk, Begin, Served, Finally;
    var v := e.upload;
    if !Free(s, v) {
      NextClient(s, e);
    } else if e.Append? {
      AppendEventServed(s, e, u);
    } else if e.Finalize? {
      FinalizeEventServed(s, e, u);
    } else {
      NextClient(s, e);
      StoredOk(s, v);
      BackgroundServes(s.disk[v], if e.Expire? then e.now else 0, 0, 0, None, None);
      match e
      case Delete(_) =>
        if s.disk[v].meta.Some? {
          RemoveServes(s.disk[v].meta.value);
          BeginServed(s, u, v, RemovePlan(s.disk[v].meta.value));
        }
      case Expire(_, now) => BeginServed(s, u, v, ExpirePlan(s.disk[v], now));
      case Recover(_) => BeginServed(s, u, v, RecoverPlan(s.disk[v]));
    }
  }

  lemma RemoveServes(m: Metadata)
    ensures RemovePlan(m).ops != [] && !IsQueued(Finally(Some(m), RemovePlan(m).ops))
  {
    FinallySingle(Some(m), RemovePlan(m).ops[0]);
    assert RemovePlan(m).ops == [RemovePlan(m).ops[0]];
  }

  lemma PrepareServed(s: Sys, u: Id, f: nat, config: Option<Config>)
    requires DiskInv(s) && Served(s, u)
    ensures Served(PrepareStep(s, f, config), u)
  {
    if f in s.running && s.running[f].pc.Starting? && Free(s, s.running[f].upload) {
      var v := s.running[f].upload;
      StoredOk(s, v);
      BackgroundServes(s.disk[v], 0, f, s.nextLease, config, None);
      hide DiskInv, PreparePlan, Loadable, Begin, Served, Finally;
      FinalizerServed(s, Lock(s, f).(nextLease := s.nextLease + 1), u, f, PreparePlan(s.disk[v], config, f, s.nextLease));
    }
  }

  lemma SettlingServed(s: Sys, s': Sys, u: Id, f: nat, failure: Option<FailureCode>)
    requires Served(s, u) && f in s.running && Leaseholder(s.running[f]) && Free(s, s.running[f].upload)
    requires s' == Lock(s, f).(log := s'.log)
    ensures Served(Begin(s', s.running[f].upload, SettlePlan(s.disk[s.running[f].upload], f, s.running[f].pc.meta.lease, failure)), u)
  {
    var v := s.running[f].upload;
    BackgroundServes(s.disk[v], 0, f, s.running[f].pc.meta.lease, None, failure);
    hide SettlePlan, Loadable, Begin, Served, Finally;
    FinalizerServed(s, s', u, f, SettlePlan(s.disk[v], f, s.running[f].pc.meta.lease, failure));
  }

  lemma RecheckServed(s: Sys, u: Id, f: nat, config: Option<Config>)
    requires Served(s, u)
    ensures Served(RecheckStep(s, f, config), u)
  {
    hide SettlePlan, AllChunksPresent, Begin, Served;
    if f in s.running && s.running[f].pc.Holding? && s.running[f].upload in s.disk {
      var s' := RecheckStep(s, f, config);
      if config.Some? && config.value.fingerprint == s.running[f].pc.meta.config.fingerprint {
        SameWorkers(s, s', u);
        ServedFrame(s, s', u);
      } else if Free(s, s.running[f].upload) {
        SettlingServed(s, Lock(s, f), u, f, Some(if config.None? then RelayDisabled else ConfigurationChanged));
      }
    }
  }

  lemma SettleServed(s: Sys, u: Id, f: nat, ok: bool)
    requires Served(s, u)
    ensures Served(SettleStep(s, f, ok), u)
  {
    hide SettlePlan, Begin, Served;
    if && f in s.running && Free(s, s.running[f].upload)
       && (s.running[f].pc.Sending? || (s.running[f].pc.Holding? && !ok)) {
      var m := s.running[f].pc.meta;
      var observed := if ok then s.(log := s.log + [Accepted(s.running[f].upload, m.requests, m.config.fingerprint)]) else s;
      SettlingServed(s, Lock(observed, f), u, f, if ok then None else Some(OriginRejected));
    }
  }

  lemma StartServed(s: Sys, u: Id)
    requires RunInv(s) && Served(s, u)
    ensures Served(StartStep(s), u)
  {
    var s' := StartStep(s);
    if s' != s {
      assert s.nextFinalizer !in s.running;
      hide RunInv;
      var f := s.nextFinalizer;
      assert f in s'.running && s'.running[f].pc.Starting? && s'.running[f].upload == s.queue[0].upload;
      forall i | 0 <= i < |s.queue| && s.queue[i].upload == u ensures HasWorker(s', u) {
        if i > 0 { assert s'.queue[i - 1] == s.queue[i]; }
      }
      ServedFrame(s, s', u);
    }
  }

  lemma FaultServed(s: Sys, e: Event, u: Id)
    requires HeldInv(s) && Served(s, u) && !Strikes(s, e, u)
    requires e.PartialDelete? || e.SweepFails? || e.IoError? || e.SyncFails?
    ensures Served(Next(s, e), u)
  {
    if e.upload == u {
      if Next(s, e) != s { OwnFaultServed(s, e, u); }
    } else {
      OtherFault(s, e, u);
      hide Next, HeldInv, Served;
      SameWorkers(s, Next(s, e), u);
      ServedFrame(s, Next(s, e), u);
    }
  }

  /** A step on another upload leaves this one, its block, its jobs and its finalizers alone. */
  ghost predicate Apart(s: Sys, s': Sys, u: Id) {
    && s'.queue == s.queue && (u in s'.disk <==> u in s.disk) && (u in s'.held <==> u in s.held)
    && (u in s.disk ==> s'.disk[u].meta == s.disk[u].meta) && (u in s.held ==> s'.held[u] == s.held[u])
    && (forall f | f in s.running && s.running[f].upload == u :: f in s'.running && s'.running[f] == s.running[f])
  }

  lemma OtherFault(s: Sys, e: Event, u: Id)
    requires HeldInv(s) && (e.PartialDelete? || e.SweepFails? || e.IoError? || e.SyncFails?) && e.upload != u
    ensures Apart(s, Next(s, e), u)
  {
    var v := e.upload;
    if v in s.held {
      BlockFinalizer(s, v);
      hide HeldInv, Apart, Next;
      match e
      case PartialDelete(_, keepMeta, keepParts) => OtherDelete(s, v, keepMeta, keepParts, u);
      case SweepFails(_) => OtherSweep(s, v, u);
      case IoError(_) => OtherError(s, v, u);
      case SyncFails(_) => OtherSync(s, v, u);
    } else {
      NotHeld(s, e);
    }
  }

  lemma NotHeld(s: Sys, e: Event)
    requires (e.PartialDelete? || e.SweepFails? || e.IoError? || e.SyncFails?) && e.upload !in s.held
    ensures Next(s, e) == s
  {
  }

  lemma OtherError(s: Sys, v: Id, u: Id)
    requires u != v && v in s.held
    requires s.held[v].then_.Grant? || s.held[v].then_.Retire? ==>
               s.held[v].then_.finalizer in s.running && s.running[s.held[v].then_.finalizer].upload == v
    ensures Apart(s, Next(s, IoError(v)), u)
  {
    OtherAbandon(s, v, u);
    hide Apart, Abandon;
  }

  lemma OtherDelete(s: Sys, v: Id, keepMeta: bool, keepParts: set<nat>, u: Id)
    requires u != v
    ensures Apart(s, Next(s, PartialDelete(v, keepMeta, keepParts)), u)
  {
  }

  lemma OtherSweep(s: Sys, v: Id, u: Id)
    requires u != v
    ensures Apart(s, Next(s, SweepFails(v)), u)
  {
  }

  lemma OtherAbandon(s: Sys, v: Id, u: Id)
    requires u != v && v in s.held
    requires s.held[v].then_.Grant? || s.held[v].then_.Retire? ==>
               s.held[v].then_.finalizer in s.running && s.running[s.held[v].then_.finalizer].upload == v
    ensures Apart(s, Abandon(s, v), u)
  {
  }

  lemma OtherSync(s: Sys, v: Id, u: Id)
    requires u != v && v in s.held && v in s.disk && v in s.accepted && |s.held[v].ops| > 0
    requires s.held[v].then_.Grant? || s.held[v].then_.Retire? ==>
               s.held[v].then_.finalizer in s.running && s.running[s.held[v].then_.finalizer].upload == v
    ensures Apart(s, Next(s, SyncFails(v)), u)
  {
    hide Apply, Observe, Abandon;
    OtherAbandon(Perform(s, v, s.held[v].ops[0]), v, u);
  }

  lemma OwnFaultServed(s: Sys, e: Event, u: Id)
    requires Served(s, u) && (e.PartialDelete? || e.SweepFails?) && e.upload == u && u in s.held && Next(s, e) != s
    ensures Served(Next(s, e), u)
  {
    var ops := s.held[u].ops;
    assert ops == [ops[0]] + ops[1..];
    if e.SweepFails? {
      var rescue := Next(s, e).held[u].ops;
      assert rescue == [rescue[0]];
      FinallySingle(s.disk[u].meta, rescue[0]);
    } else {
      FinallyConcat(s.disk[u].meta, [ops[0]], ops[1..]);
      FinallyConcat(Next(s, e).disk[u].meta, [ops[0]], ops[1..]);
      FinallySingle(s.disk[u].meta, ops[0]);
      FinallySingle(Next(s, e).disk[u].meta, ops[0]);
      hide Finally, Restrict;
    }
  }

  lemma CreateServed(s: Sys, e: Event, u: Id)
    requires DiskInv(s) && HeldInv(s) && Served(s, u) && (e.CreateBegin? || e.CreateScan? || e.CreateEnd? || e.CreateFail?)
    ensures Served(Next(s, e), u)
  {
    CreateFresh(s);
    CreateChanges(s, e);
    hide DiskInv, HeldInv, Served, Next;
    SameWorkers(s, Next(s, e), u);
    ServedFrame(s, Next(s, e), u);
  }

  lemma NextServed(s: Sys, e: Event, u: Id)
    requires Inv(s) && Served(s, u) && !Strikes(s, e, u)
    ensures Served(Next(s, e), u)
  {
    hide DiskInv, HeldInv, RunInv, TicketInv, Served, WriteStep, PrepareStep, RecheckStep, SettleStep, ReadChunkStep, StartStep, ReadFailsStep;
    match e
    case Write(v) => WriteServed(s, u, v);
    case Prepare(f, config) => PrepareServed(s, u, f, config);
    case Recheck(f, config) => RecheckServed(s, u, f, config);
    case Settle(f, ok) => SettleServed(s, u, f, ok);
    case ReadChunk(f) => ReadServed(s, u, f);
    case ReadFails(f) => OtherReadFails(s, u, f);
    case StartFinalizer => StartServed(s, u);
    case _ =>
      if e.CreateBegin? || e.CreateScan? || e.CreateEnd? || e.CreateFail? { CreateServed(s, e, u); }
      else if e.PartialDelete? || e.SweepFails? || e.IoError? || e.SyncFails? { FaultServed(s, e, u); }
      else { ClientServed(s, e, u); }
  }

  lemma OtherReadFails(s: Sys, u: Id, f: nat)
    requires Served(s, u) && (f in s.running ==> s.running[f].upload != u)
    ensures Served(ReadFailsStep(s, f), u)
  {
    SameWorkers(s, ReadFailsStep(s, f), u);
    ServedFrame(s, ReadFailsStep(s, f), u);
  }

  lemma ReadServed(s: Sys, u: Id, f: nat)
    requires Served(s, u)
    ensures Served(ReadChunkStep(s, f), u)
  {
    SameWorkers(s, ReadChunkStep(s, f), u);
    ServedFrame(s, ReadChunkStep(s, f), u);
  }

  // ---------- Failures ----------

  lemma CrashForgets(s: Sys, u: Id)
    requires Served(s, u)
    ensures Served(CrashStep(s), u) <==> !Forgets(s, Crash, u)
  {
  }

  /** Ending a block takes away no worker: its finalizer, if any, has looked at the upload. */
  lemma AbandonedWorkers(s: Sys, base: Sys, u: Id)
    requires HeldInv(s) && u in s.held && base == s.(disk := base.disk, accepted := base.accepted, log := base.log)
    ensures HasWorker(Abandon(base, u), u) <==> HasWorker(s, u)
    ensures var s' := Abandon(base, u); u !in s'.held && s'.disk == base.disk
  {
    BlockFinalizer(s, u);
    if s.held[u].then_.Grant? || s.held[u].then_.Retire? { BlockIsLocked(s, u); }
    hide HeldInv;
    var s' := Abandon(base, u);
    assert s'.queue == s.queue;
    assert forall f | f in s.running && s.running[f].pc.Starting? :: f in s'.running && s'.running[f] == s.running[f];
    assert forall f | f in s'.running :: f in s.running && s'.running[f] == s.running[f];
  }

  lemma BlockIsLocked(s: Sys, u: Id)
    requires HeldInv(s) && u in s.held && (s.held[u].then_.Grant? || s.held[u].then_.Retire?)
    ensures s.held[u].then_.finalizer in s.running && s.running[s.held[u].then_.finalizer].pc.Locked?
  {
    if s.held[u].then_.Grant? {
      assert Granting(s, u, s.held[u], s.held[u].then_.finalizer, s.held[u].then_.granted);
    }
  }

  lemma WriteFailureForgets(s: Sys, e: Event, u: Id)
    requires HeldInv(s) && Served(s, u) && (e.IoError? || e.SyncFails?) && e.upload == u
    ensures Served(Next(s, e), u) <==> !Forgets(s, e, u)
  {
    if u in s.held {
      BlockFinalizer(s, u);
      AbandonedWorkers(s, s, u);
      AbandonedWorkers(s, Perform(s, u, s.held[u].ops[0]), u);
      hide HeldInv, HasWorker, Abandon, Observe, Finally;
    } else {
      NotHeld(s, e);
    }
  }

  lemma ReadFailureForgets(s: Sys, f: nat, u: Id)
    requires Served(s, u) && f in s.running && s.running[f].upload == u
    ensures Served(ReadFailsStep(s, f), u) <==> !Forgets(s, ReadFails(f), u)
  {
    hide Finally;
    var s' := ReadFailsStep(s, f);
    if Free(s, u) {
      assert forall g | g in s'.running :: g != f && g in s.running && s'.running[g] == s.running[g];
      assert forall g | g in s.running && g != f :: g in s'.running;
    }
  }

  lemma StrikeForgets(s: Sys, e: Event, u: Id)
    requires Inv(s) && Served(s, u) && Strikes(s, e, u)
    ensures Served(Next(s, e), u) <==> !Forgets(s, e, u)
  {
    hide DiskInv, HeldInv, RunInv, TicketInv, Served, Forgets, CrashStep, ReadFailsStep, IoErrorStep, SyncFailsStep;
    match e
    case Crash => CrashForgets(s, u);
    case ReadFails(f) => ReadFailureForgets(s, f, u);
    case _ => WriteFailureForgets(s, e, u);
  }

  /** From a reachable served state a step leaves the upload served exactly unless it is one of those. */
  lemma NextServedIff(s: Sys, e: Event, u: Id)
    requires Inv(s) && Served(s, u)
    ensures Served(Next(s, e), u) <==> !Forgets(s, e, u)
  {
    if Strikes(s, e, u) {
      hide Inv, Next, Served, Forgets;
      StrikeForgets(s, e, u);
    } else {
      assert !Forgets(s, e, u);
      hide Inv, Next, Served, Forgets;
      NextServed(s, e, u);
    }
  }

  /** After every prefix of the run the upload is served. */
  ghost predicate AlwaysServed(s: Sys, events: seq<Event>, u: Id)
    decreases |events|
  {
    Served(Run(s, events), u) && (|events| > 0 ==> AlwaysServed(s, events[..|events| - 1], u))
  }

  ghost predicate NeverForgets(s: Sys, events: seq<Event>, u: Id)
    decreases |events|
  {
    |events| > 0 ==>
      var front := events[..|events| - 1];
      NeverForgets(s, front, u) && !Forgets(Run(s, front), events[|events| - 1], u)
  }

  lemma {:induction false} ServedIffNeverForgets(s: Sys, events: seq<Event>, u: Id)
    requires Inv(s) && Served(s, u)
    ensures Inv(Run(s, events)) && (AlwaysServed(s, events, u) <==> NeverForgets(s, events, u))
    decreases |events|
  {
    hide Inv, Served, Forgets, Next;
    if |events| > 0 {
      var front, e := events[..|events| - 1], events[|events| - 1];
      ServedIffNeverForgets(s, front, u);
      assert AlwaysServed(s, front, u) ==> Served(Run(s, front), u);
      NextInv(Run(s, front), e);
      if Served(Run(s, front), u) { NextServedIff(Run(s, front), e, u); }
    }
  }

  /**
   * Over every run: after every step a queued upload that nobody holds has a job or a finalizer that
   * will look at it, exactly unless some step of the run is a forgetting failure.
   */
  lemma {:induction false} NoQueuedUploadIsForgotten(maxPendingBytes: nat, events: seq<Event>, u: Id)
    ensures AlwaysServed(Init(maxPendingBytes), events, u) <==> NeverForgets(Init(maxPendingBytes), events, u)
  {
    RunKeepsInv(maxPendingBytes, []);
    hide Inv, Forgets, Next;
    ServedIffNeverForgets(Init(maxPendingBytes), events, u);
  }

  lemma SyncStrands(s: Sys, u: Id, config: Config, headers: Headers)
    requires u in s.held && u in s.disk && u in s.accepted && s.held[u].then_.Enqueue? && !HasWorker(s, u)
    requires |s.held[u].ops| == 1 && s.held[u].ops[0].PutMeta? && s.held[u].ops[0].meta.state.Queued? && Loadable(s.held[u].ops[0].meta)
    ensures var s' := Next(s, SyncFails(u));
            && u in s'.disk && u !in s'.held && IsQueued(s'.disk[u].meta) && !HasWorker(s', u)
            && Next(s', Finalize(u, config, headers)) == s'
  {
    hide Loadable, ForwardedRequestHeaders;
  }

  /**
   * A write that took effect but reported failure: the upload is queued without a worker, and asking
   * for it again does nothing.
   */
  lemma {:induction false} FailedSyncStrands(config: Config, headers: Headers) returns (events: seq<Event>)
    requires config.chunkSize >= 1 && config.maxFileSize >= 1
    ensures var s := Run(Init(1), events);
            && 0 in s.disk && 0 !in s.held && IsQueued(s.disk[0].meta) && !HasWorker(s, 0)
            && Next(s, Finalize(0, config, headers)) == s
  {
    hide Run, Next, HasWorker, Loadable, At, RunUpTo;
    var create := Create(config, MAX_CONCURRENT_FINALIZERS);
    OneIsTheSource(Init(1), create);
    var s := Run(Init(1), create);
    assert At(s, NewMetadata(1, config, 0), []);
    var append := Append(0, config, 0, 1, [7], map[]);
    var s3 := Next(Next(Next(s, append), Write(0)), Write(0));
    BeforeQueueing(s, config);
    events := create + [append, Write(0), Write(0), SyncFails(0)];
    RunAppend(Init(1), create, append, Write(0), Write(0), SyncFails(0));
    SyncStrands(s3, 0, config, headers);
  }

  /** One write before an upload is queued. */
  lemma BeforeQueueing(s: Sys, config: Config)
    requires At(s, NewMetadata(1, config, 0), []) && config.chunkSize >= 1 && s.running == map[]
    ensures var s' := Next(Next(Next(s, Append(0, config, 0, 1, [7], map[])), Write(0)), Write(0));
            && 0 in s'.held && 0 in s'.disk && 0 in s'.accepted && s'.held[0].then_.Enqueue? && !HasWorker(s', 0)
            && |s'.held[0].ops| == 1 && s'.held[0].ops[0].PutMeta? && s'.held[0].ops[0].meta.state.Queued?
            && Loadable(s'.held[0].ops[0].meta)
  {
    var blank := NewMetadata(1, config, 0);
    var sent := blank.(chunks := [Chunk(0, 1)], offset := 1);
    var m := Requeued(sent, config, map[]);
    SentLoads(blank, sent, config);
    RequeuedIsQueued(sent, config);
    SendBegins(s, config, 1);
    hide Loadable, Requeued, AppendPlan, Observe;
    var s1 := NextUpTo(s, Append(0, config, 0, 1, [7], map[]), 1);
    FirstWrite(s1, PutPart(0, [7]), [PutMeta(sent, [7])] + [PutMeta(m, [])], Enqueue(map[]));
    var s2 := WriteStep(s1, 0);
    FirstWrite(s2, PutMeta(sent, [7]), [PutMeta(m, [])], Enqueue(map[]));
    var s3 := WriteStep(s2, 0);
    assert s3.queue == [] && s3.running == map[] && s3.held[0] == Block([PutMeta(m, [])], Enqueue(map[]));
    hide WriteStep;
    assert s1 == Next(s, Append(0, config, 0, 1, [7], map[])) && s2 == Next(s1, Write(0)) && s3 == Next(s2, Write(0));
  }

  lemma RequeuedIsQueued(m: Metadata, config: Config)
    ensures Requeued(m, config, map[]).state.Queued?
  {
  }

  lemma RunAppend(s: Sys, events: seq<Event>, a: Event, b: Event, c: Event, d: Event)
    ensures Run(s, events + [a, b, c, d]) == Next(Next(Next(Next(Run(s, events), a), b), c), d)
  {
    hide Next;
    var all := events + [a, b, c, d];
    var n := |events|;
    assert all[..n + 3] == events + [a, b, c] && (events + [a, b, c])[..n + 2] == events + [a, b];
    assert (events + [a, b])[..n + 1] == events + [a] && (events + [a])[..n] == events;
    assert Run(s, events + [a]) == Next(Run(s, events), a);
    assert Run(s, events + [a, b]) == Next(Run(s, events + [a]), b);
    assert Run(s, events + [a, b, c]) == Next(Run(s, events + [a, b]), c);
  }

  /** A finalizer that cannot read the metadata strands the upload in the same way. */
  lemma {:induction false} FailedReadStrands(config: Config, headers: Headers) returns (events: seq<Event>)
    requires config.chunkSize >= 1 && config.maxFileSize >= 1
    ensures var s := Run(Init(1), events);
            && 0 in s.disk && 0 !in s.held && IsQueued(s.disk[0].meta) && !HasWorker(s, 0)
            && Next(s, Finalize(0, config, headers)) == s
  {
    hide Run, RunUpTo, Loadable;
    var upload, m := Upload(config, MAX_CONCURRENT_FINALIZERS);
    OneIsTheSource(Init(1), upload);
    var s := Run(Init(1), upload);
    StartOne(s, m, MAX_CONCURRENT_FINALIZERS);
    events := upload + [StartFinalizer, ReadFails(0)];
    RunTwoMore(Init(1), upload, StartFinalizer, ReadFails(0));
    var started := Next(s, StartFinalizer);
    assert started == NextUpTo(s, StartFinalizer, MAX_CONCURRENT_FINALIZERS);
    hide NextUpTo;
    ReadStrands(started, m, config, headers);
  }

  lemma ReadStrands(s: Sys, m: Metadata, config: Config, headers: Headers)
    requires At(s, m, []) && m.state.Queued? && s.running == map[0 := Finalizer(0, map[], Starting)]
    ensures var s' := Next(s, ReadFails(0));
            && 0 in s'.disk && 0 !in s'.held && IsQueued(s'.disk[0].meta) && !HasWorker(s', 0)
            && Next(s', Finalize(0, config, headers)) == s'
  {
    hide Loadable, ForwardedRequestHeaders;
  }

  lemma RunTwoMore(s: Sys, events: seq<Event>, a: Event, b: Event)
    ensures Run(s, events + [a, b]) == Next(Next(Run(s, events), a), b)
  {
    hide Next;
    assert (events + [a, b])[..|events| + 1] == events + [a] && (events + [a])[..|events|] == events;
    assert Run(s, events + [a]) == Next(Run(s, events), a);
  }

  // ---------- Recovery ----------

  /** Recovering a free upload serves it, whatever was lost before. */
  lemma RecoverServes(s: Sys, u: Id)
    requires DiskInv(s) && u in s.disk && u !in s.held
    ensures Served(Next(s, Recover(u)), u)
  {
    hide Next, DiskInv, RecoverPlan, Loadable, MetaOk, DirOk;
    NextClient(s, Recover(u));
    StoredOk(s, u);
    BackgroundServes(s.disk[u], 0, 0, 0, None, None);
    RecoverMeets(s.disk[u]);
  }

  lemma RecoverMeets(d: Dir)
    ensures LoadMetadata(d).Some? && IsQueued(d.meta) ==> RecoverPlan(d).ops != []
  {
    hide Loadable;
  }

  /**
   * After a crash anywhere in a run, the recovery of an upload makes it served, and it stays so through
   * any further run exactly unless that contains a forgetting failure.
   */
  lemma {:induction false} RecoveryTakesItUp(maxPendingBytes: nat, before: seq<Event>, after: seq<Event>, u: Id)
    requires u in Next(Run(Init(maxPendingBytes), before), Crash).disk
    ensures var recovered := Next(Next(Run(Init(maxPendingBytes), before), Crash), Recover(u));
            Served(recovered, u) && (AlwaysServed(recovered, after, u) <==> NeverForgets(recovered, after, u))
  {
    RunKeepsInv(maxPendingBytes, before);
    var s := Run(Init(maxPendingBytes), before);
    NextInv(s, Crash);
    CrashFrees(s);
    var crashed := Next(s, Crash);
    NextInv(crashed, Recover(u));
    assert DiskInv(crashed);
    hide Inv, DiskInv, Run, Next, Served, Forgets;
    RecoverServes(crashed, u);
    ServedIffNeverForgets(Next(crashed, Recover(u)), after, u);
  }

  lemma CrashFrees(s: Sys)
    ensures Next(s, Crash).held == map[]
  {
  }
}
