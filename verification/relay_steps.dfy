/** Every step of the upload relay preserves the invariant; hence so does every run. */
module RelaySteps {
  import opened Wrappers
  import opened RelayTypes
  import opened RelayProtocol
  import opened RelaySafety

  // ---------- Frames: which parts of the state each invariant depends on ----------

  /** No finalizer gains a lease, and no lock owner disappears, except on uploads that nobody holds. */
  ghost predicate FewerLeases(s: Sys, s': Sys) {
    forall f | f in s'.running && Leaseholder(s'.running[f]) ::
      && f in s.running && Leaseholder(s.running[f])
      && s.running[f].upload == s'.running[f].upload
      && s.running[f].pc.meta == s'.running[f].pc.meta
      && (s'.running[f].pc.Holding? ==> s.running[f].pc.Holding?)
  }

  ghost predicate SameLockOwners(s: Sys, s': Sys) {
    forall f | f in s.running && s.running[f].pc.Locked? && s.running[f].upload in s'.held ::
      f in s'.running && s'.running[f] == s.running[f]
  }

  ghost predicate LogGrows(s: Sys, s': Sys) {
    forall o | o in s.log :: o in s'.log
  }

  lemma HeldFrame(s: Sys, s': Sys)
    requires HeldInv(s)
    requires s'.disk == s.disk && s'.accepted == s.accepted && s.nextLease <= s'.nextLease
    requires forall u | u in s'.held :: u in s.held && s'.held[u] == s.held[u]
    requires LogGrows(s, s') && FewerLeases(s, s') && SameLockOwners(s, s')
    ensures HeldInv(s')
  {
  }

  lemma RunFrame(s: Sys, s': Sys)
    requires RunInv(s)
    requires forall u | u in s.disk :: u in s'.disk && (s'.disk[u].meta == s.disk[u].meta || s'.disk[u].meta.None?)
    requires forall u | u in s.accepted :: u in s'.accepted && s'.accepted[u] == s.accepted[u]
    requires s.nextLease <= s'.nextLease && s.nextFinalizer <= s'.nextFinalizer
    requires LogGrows(s, s') && FewerLeases(s, s')
    requires forall f | f in s'.running ::
               || (f in s.running && s'.running[f].upload == s.running[f].upload)
               || (f < s'.nextFinalizer && s'.running[f].upload in s'.disk)
    requires forall f | f in s'.running && s'.running[f].pc.Sending? :: f in s.running && s'.running[f] == s.running[f]
    ensures RunInv(s')
  {
    forall f | f in s'.running && Leaseholder(s'.running[f])
      ensures LeaseOk(s', s'.running[f].upload, s'.running[f].pc.meta)
    {
      assert LeaseOk(s, s.running[f].upload, s.running[f].pc.meta);
    }
  }

  lemma TicketFrame(s: Sys, s': Sys)
    requires TicketInv(s) && s'.log == s.log
    requires forall u | u in s.disk :: u in s'.disk
    requires forall u | u in s'.disk && s'.disk[u].meta.Some? :: u in s.disk && s'.disk[u].meta == s.disk[u].meta
    requires FewerLeases(s, s')
    requires forall f | f in s'.running && s'.running[f].pc.Sending? :: s.running[f].pc.Sending?
    ensures TicketInv(s')
  {
  }

  // ---------- Starting and ending a block ----------

  ghost predicate BlockReady(s: Sys, u: Id, block: Block) {
    && u in s.disk && u in s.accepted && |block.ops| > 0
    && OpsOk(s.disk[u], s.accepted[u], block.ops)
    && CompletionsAccepted(s.log, u, block.ops)
    && LeaseWritesGranted(block.ops, block.then_)
    && (block.then_.Grant? ==> Granting(s, u, block, block.then_.finalizer, block.then_.granted))
    && (block.then_.Retire? ==>
          var f := block.then_.finalizer;
          f in s.running && s.running[f].upload == u && s.running[f].pc.Locked?)
  }

  lemma HoldHeld(s: Sys, u: Id, block: Block)
    requires HeldInv(s) && BlockReady(s, u, block)
    ensures HeldInv(s.(held := s.held[u := block]))
  {
    var s' := s.(held := s.held[u := block]);
    forall v | v in s'.held && s'.held[v].then_.Grant?
      ensures Granting(s', v, s'.held[v], s'.held[v].then_.finalizer, s'.held[v].then_.granted)
    {
      assert Granting(s, v, s'.held[v], s'.held[v].then_.finalizer, s'.held[v].then_.granted);
    }
  }

  lemma HoldInv(s: Sys, u: Id, block: Block)
    requires Inv(s) && BlockReady(s, u, block)
    ensures Inv(s.(held := s.held[u := block]))
  {
    hide HeldInv, RunInv, TicketInv, BlockReady;
    var s' := s.(held := s.held[u := block]);
    HoldHeld(s, u, block);
    RunFrame(s, s');
    TicketFrame(s, s');
  }

  /** Drop a finalizer, or park it, while its upload is not locked. */
  lemma RunningInv(s: Sys, s': Sys)
    requires Inv(s)
    requires s' == s.(running := s'.running, nextFinalizer := s'.nextFinalizer, nextLease := s'.nextLease)
    requires s.nextFinalizer <= s'.nextFinalizer && s.nextLease <= s'.nextLease
    requires FewerLeases(s, s') && SameLockOwners(s, s')
    requires forall f | f in s'.running ::
               || (f in s.running && s'.running[f].upload == s.running[f].upload)
               || (f < s'.nextFinalizer && s'.running[f].upload in s'.disk)
    requires forall f | f in s'.running && s'.running[f].pc.Sending? :: f in s.running && s'.running[f] == s.running[f]
    ensures Inv(s')
  {
    hide HeldInv, RunInv, TicketInv;
    HeldFrame(s, s');
    RunFrame(s, s');
    TicketFrame(s, s');
  }

  lemma RetireInv(s: Sys, f: nat)
    requires Inv(s)
    requires f in s.running ==> s.running[f].upload !in s.held
    ensures Inv(s.(running := s.running - {f}))
  {
    hide HeldInv, TicketInv, DiskInv;
    RunningInv(s, s.(running := s.running - {f}));
  }

  lemma LockInv(s: Sys, f: nat)
    requires Inv(s) && f in s.running && s.running[f].upload !in s.held
    ensures Inv(Lock(s, f))
  {
    hide HeldInv, TicketInv, DiskInv;
    RunningInv(s, Lock(s, f));
  }

  lemma BeginInv(s: Sys, u: Id, plan: Plan)
    requires Inv(s) && Free(s, u)
    requires plan.ops != [] ==> BlockReady(s, u, Block(plan.ops, plan.then_))
    requires plan.ops == [] && plan.then_.Retire? && plan.then_.finalizer in s.running ==>
               s.running[plan.then_.finalizer].upload == u
    requires plan.ops == [] ==> !plan.then_.Grant?
    ensures Inv(Begin(s, u, plan))
  {
    hide HeldInv, RunInv, TicketInv, DiskInv, BlockReady;
    if plan.ops != [] {
      HoldInv(s, u, Block(plan.ops, plan.then_));
    } else if plan.then_.Retire? {
      RetireInv(s, plan.then_.finalizer);
    } else {
      SameInv(s, Begin(s, u, plan));
    }
  }

  /** The queue and the create scan are not part of the invariant. */
  lemma SameInv(s: Sys, s': Sys)
    requires Inv(s) && s' == s.(queue := s'.queue, creating := s'.creating)
    ensures Inv(s')
  {
    hide HeldInv, RunInv, TicketInv;
    HeldFrame(s, s');
    RunFrame(s, s');
    TicketFrame(s, s');
  }

  lemma ReleaseLock(s: Sys, u: Id)
    requires Inv(s)
    ensures Inv(s.(held := s.held - {u}))
  {
    hide HeldInv, RunInv, TicketInv;
    var s' := s.(held := s.held - {u});
    HeldFrame(s, s');
    RunFrame(s, s');
    TicketFrame(s, s');
  }

  // ---------- Performing a planned write ----------

  lemma PerformDisk(s: Sys, u: Id)
    requires DiskInv(s) && HeldInv(s) && u in s.held
    ensures DiskInv(Perform(s, u, s.held[u].ops[0]))
    ensures var after := Perform(s, u, s.held[u].ops[0]);
            OpsOk(after.disk[u], after.accepted[u], s.held[u].ops[1..])
  {
    PerformOk(s.disk[u], s.accepted[u], s.held[u].ops);
  }

  /** A held metadata write follows the rules of MetaStep; while a lease is out it accepts no bytes. */
  lemma HeldWrite(s: Sys, u: Id)
    requires DiskInv(s) && HeldInv(s) && u in s.held && s.held[u].ops[0].PutMeta?
    ensures s.disk[u].meta.Some? && MetaStep(s.disk[u].meta.value, s.held[u].ops[0].meta)
    ensures MetaOk(s.disk[u].meta.value) && MetaOk(s.held[u].ops[0].meta)
    ensures s.held[u].ops[0].meta.offset == |s.accepted[u]| + |s.held[u].ops[0].accepts|
    ensures s.held[u].ops[0].meta.state.Completed? ==> Accepted(u, s.held[u].ops[0].meta.requests, s.held[u].ops[0].meta.config.fingerprint) in s.log
    ensures s.held[u].ops[0].meta.state.Forwarding? ==>
              forall g | g in s.running && s.running[g].upload == u && Leaseholder(s.running[g]) ::
                s.running[g].pc.meta.lease != s.held[u].ops[0].meta.lease
  {
    if s.held[u].ops[0].meta.state.Forwarding? {
      assert s.held[u].then_.Grant?;
      assert Granting(s, u, s.held[u], s.held[u].then_.finalizer, s.held[u].then_.granted);
    }
  }

  lemma PerformLease(s: Sys, u: Id, f: nat)
    requires DiskInv(s) && HeldInv(s) && RunInv(s) && u in s.held
    requires f in s.running && Leaseholder(s.running[f])
    ensures LeaseOk(Perform(s, u, s.held[u].ops[0]), s.running[f].upload, s.running[f].pc.meta)
    ensures Perform(s, u, s.held[u].ops[0]).accepted[s.running[f].upload] == s.accepted[s.running[f].upload]
  {
    assert LeaseOk(s, s.running[f].upload, s.running[f].pc.meta);
    if s.running[f].upload == u && s.held[u].ops[0].PutMeta? {
      HeldWrite(s, u);
      hide HeldInv, DiskInv, RunInv, TilesFrom, OpsOk;
      assert s.held[u].ops[0].accepts == [];
      assert s.accepted[u] + [] == s.accepted[u];
    }
  }

  lemma PerformRun(s: Sys, u: Id)
    requires DiskInv(s) && HeldInv(s) && RunInv(s) && u in s.held
    ensures RunInv(Perform(s, u, s.held[u].ops[0]))
  {
    var after := Perform(s, u, s.held[u].ops[0]);
    forall f | f in s.running && Leaseholder(s.running[f])
      ensures LeaseOk(after, s.running[f].upload, s.running[f].pc.meta)
      ensures after.accepted[s.running[f].upload] == s.accepted[s.running[f].upload]
    {
      PerformLease(s, u, f);
    }
    hide HeldInv, DiskInv, LeaseOk;
  }

  lemma PerformTicket(s: Sys, u: Id)
    requires DiskInv(s) && HeldInv(s) && TicketInv(s) && u in s.held
    ensures TicketInv(Perform(s, u, s.held[u].ops[0]))
  {
    var op := s.held[u].ops[0];
    if op.PutMeta? {
      HeldWrite(s, u);
      hide HeldInv, DiskInv, MetaOk, OpsOk;
      TicketWrite(s, u, op);
    } else {
      hide HeldInv, DiskInv;
      TicketFrame(s, Perform(s, u, op));
    }
  }

  /** A metadata write either keeps the ticket of its upload or issues the next one. */
  lemma TicketWrite(s: Sys, u: Id, op: DiskOp)
    requires TicketInv(s) && u in s.disk && u in s.accepted
    requires op.PutMeta? && s.disk[u].meta.Some? && MetaStep(s.disk[u].meta.value, op.meta)
    requires op.meta.state.Completed? ==> Accepted(u, op.meta.requests, op.meta.config.fingerprint) in s.log
    ensures TicketInv(Perform(s, u, op))
  {
    if op.meta.requests > s.disk[u].meta.value.requests {
      TicketIssued(s, u, op);
    } else {
      TicketKept(s, u, op);
    }
  }

  lemma TicketIssued(s: Sys, u: Id, op: DiskOp)
    requires TicketInv(s) && u in s.disk && u in s.accepted
    requires op.PutMeta? && s.disk[u].meta.Some? && MetaStep(s.disk[u].meta.value, op.meta)
    requires op.meta.state.Completed? ==> Accepted(u, op.meta.requests, op.meta.config.fingerprint) in s.log
    requires op.meta.requests > s.disk[u].meta.value.requests
    ensures TicketInv(Perform(s, u, op))
  {
    var after := Perform(s, u, op);
    var o := Requested(u, op.meta.requests, op.meta.config.fingerprint);
    assert after.log == s.log + [o] && after.running == s.running && after.disk == s.disk[u := after.disk[u]];
    assert after.disk[u].meta == Some(op.meta);
    assert NotDispatched(s.log, u, op.meta.requests);
    hide Perform;
  }

  lemma TicketKept(s: Sys, u: Id, op: DiskOp)
    requires TicketInv(s) && u in s.disk && u in s.accepted
    requires op.PutMeta? && s.disk[u].meta.Some? && MetaStep(s.disk[u].meta.value, op.meta)
    requires op.meta.state.Completed? ==> Accepted(u, op.meta.requests, op.meta.config.fingerprint) in s.log
    requires op.meta.requests <= s.disk[u].meta.value.requests
    ensures TicketInv(Perform(s, u, op))
  {
    assert Perform(s, u, op).log == s.log;
  }

  /** The lock owner's block after its first planned write. */
  lemma PerformOwnBlock(s: Sys, u: Id)
    requires DiskInv(s) && HeldInv(s) && u in s.held && |s.held[u].ops| > 1
    ensures var after := Perform(s, u, s.held[u].ops[0]);
            BlockReady(after, u, s.held[u].(ops := s.held[u].ops[1..]))
  {
    PerformDisk(s, u);
    var after := Perform(s, u, s.held[u].ops[0]);
    var rest := s.held[u].ops[1..];
    assert !s.held[u].then_.Grant?;
    assert CompletionsAccepted(s.log, u, s.held[u].ops) && LeaseWritesGranted(s.held[u].ops, s.held[u].then_);
    hide HeldInv, DiskInv, OpsOk, DirOk;
    assert forall o | o in s.log :: o in after.log;
    forall i | 0 <= i < |rest| && rest[i].PutMeta? && rest[i].meta.state.Completed?
      ensures Accepted(u, rest[i].meta.requests, rest[i].meta.config.fingerprint) in after.log
    {
      assert rest[i] == s.held[u].ops[i + 1];
    }
    assert forall i | 0 <= i < |rest| :: rest[i] == s.held[u].ops[i + 1];
  }

  lemma PerformOtherBlock(s: Sys, u: Id, v: Id)
    requires HeldInv(s) && u in s.held && v in s.held && u != v
    ensures BlockReady(Perform(s, u, s.held[u].ops[0]), v, s.held[v])
  {
    var after := Perform(s, u, s.held[u].ops[0]);
    if s.held[v].then_.Grant? {
      assert Granting(s, v, s.held[v], s.held[v].then_.finalizer, s.held[v].then_.granted);
    }
    assert CompletionsAccepted(s.log, v, s.held[v].ops);
    assert forall o | o in s.log :: o in after.log;
  }

  lemma PerformHeld(s: Sys, u: Id, held': map<Id, Block>)
    requires DiskInv(s) && HeldInv(s) && u in s.held
    requires forall v | v in held' && v != u :: v in s.held && held'[v] == s.held[v]
    requires u in held' ==> |s.held[u].ops| > 1 && held'[u] == s.held[u].(ops := s.held[u].ops[1..])
    ensures HeldInv(Perform(s, u, s.held[u].ops[0]).(held := held'))
  {
    var after := Perform(s, u, s.held[u].ops[0]);
    forall v | v in held'
      ensures BlockReady(after.(held := held'), v, held'[v])
    {
      if v == u { PerformOwnBlock(s, u); } else { PerformOtherBlock(s, u, v); }
      assert BlockReady(after, v, held'[v]);
      hide HeldInv, DiskInv, OpsOk;
    }
    HeldFromBlocks(after.(held := held'));
  }

  lemma HeldFromBlocks(s: Sys)
    requires forall v | v in s.held :: BlockReady(s, v, s.held[v])
    ensures HeldInv(s)
  {
    hide OpsOk, CompletionsAccepted, LeaseWritesGranted, Granting;
  }

  lemma PerformInv(s: Sys, u: Id, held': map<Id, Block>)
    requires Inv(s) && u in s.held
    requires forall v | v in held' && v != u :: v in s.held && held'[v] == s.held[v]
    requires u in held' ==> |s.held[u].ops| > 1 && held'[u] == s.held[u].(ops := s.held[u].ops[1..])
    ensures Inv(Perform(s, u, s.held[u].ops[0]).(held := held'))
  {
    assert u in s.disk && u in s.accepted && |s.held[u].ops| > 0;
    hide HeldInv, RunInv, TicketInv;
    var after := Perform(s, u, s.held[u].ops[0]);
    PerformDisk(s, u);
    PerformRun(s, u);
    PerformTicket(s, u);
    PerformHeld(s, u, held');
    RunFrame(after, after.(held := held'));
    TicketFrame(after, after.(held := held'));
  }

  lemma GrantRun(s: Sys, f: nat, m: Metadata)
    requires RunInv(s) && f in s.running
    requires LeaseOk(s, s.running[f].upload, m)
    requires forall g | g in s.running && s.running[g].upload == s.running[f].upload && Leaseholder(s.running[g]) ::
               s.running[g].pc.meta.requests != m.requests
    ensures RunInv(s.(running := s.running[f := s.running[f].(pc := Holding(m))]))
  {
    var s' := s.(running := s.running[f := s.running[f].(pc := Holding(m))]);
    forall g | g in s'.running && Leaseholder(s'.running[g])
      ensures LeaseOk(s', s'.running[g].upload, s'.running[g].pc.meta)
    {
      assert g != f ==> LeaseOk(s, s.running[g].upload, s.running[g].pc.meta);
    }
    hide LeaseOk;
  }

  lemma GrantHeld(s: Sys, f: nat, m: Metadata)
    requires HeldInv(s) && f in s.running && s.running[f].upload !in s.held
    ensures HeldInv(s.(running := s.running[f := s.running[f].(pc := Holding(m))]))
  {
    var s' := s.(running := s.running[f := s.running[f].(pc := Holding(m))]);
    forall v | v in s'.held && s'.held[v].then_.Grant?
      ensures Granting(s', v, s'.held[v], s'.held[v].then_.finalizer, s'.held[v].then_.granted)
    {
      assert Granting(s, v, s.held[v], s.held[v].then_.finalizer, s.held[v].then_.granted);
    }
  }

  lemma GrantTicket(s: Sys, f: nat, m: Metadata)
    requires TicketInv(s) && f in s.running && NotDispatched(s.log, s.running[f].upload, m.requests)
    ensures TicketInv(s.(running := s.running[f := s.running[f].(pc := Holding(m))]))
  {
  }

  /** What the durable Queued -> Forwarding write leaves behind for the finalizer that owns it. */
  lemma LeaseWritten(s: Sys, u: Id)
    requires Inv(s) && u in s.held && s.held[u].then_.Grant?
    ensures var f := s.held[u].then_.finalizer;
            var m := s.held[u].then_.granted;
            var after := Perform(s, u, s.held[u].ops[0]);
            && f in s.running && s.running[f].upload == u && |s.held[u].ops| == 1
            && LeaseOk(after, u, m)
            && after.log == s.log && NotDispatched(s.log, u, m.requests)
            && (forall g | g in s.running && s.running[g].upload == u && Leaseholder(s.running[g]) ::
                  s.running[g].pc.meta.requests != m.requests)
  {
    var f := s.held[u].then_.finalizer;
    var m := s.held[u].then_.granted;
    assert Granting(s, u, s.held[u], f, m);
    HeldWrite(s, u);
    var now := s.disk[u].meta.value;
    assert DirOk(s.disk[u], s.accepted[u]);
    assert m.requests > 0 && NotDispatched(s.log, u, now.requests);
    assert Requested(u, m.requests, m.config.fingerprint) in s.log;
    forall g | g in s.running && s.running[g].upload == u && Leaseholder(s.running[g])
      ensures s.running[g].pc.meta.requests != m.requests
    {
      assert LeaseOk(s, u, s.running[g].pc.meta);
    }
    hide HeldInv, RunInv, TicketInv, DiskInv, OpsOk, DirOk, TilesFrom;
    assert s.held[u].ops[0].accepts == [];
    assert s.accepted[u] + [] == s.accepted[u];
  }

  lemma WriteInv(s: Sys, u: Id)
    requires Inv(s)
    ensures Inv(WriteStep(s, u))
  {
    if u in s.held && u in s.disk && u in s.accepted && s.held[u].ops != [] {
      var block := s.held[u];
      var after := Perform(s, u, block.ops[0]);
      if |block.ops| > 1 {
        hide HeldInv, RunInv, TicketInv, DiskInv;
        PerformInv(s, u, after.held[u := block.(ops := block.ops[1..])]);
      } else {
        if block.then_.Grant? {
          LeaseWritten(s, u);
        } else if block.then_.Retire? {
          assert s.running[block.then_.finalizer].upload == u;
        }
        hide HeldInv, RunInv, TicketInv, DiskInv;
        var released := after.(held := after.held - {u});
        PerformInv(s, u, released.held);
        ContinueInv(released, u, block.then_);
      }
    }
  }

  lemma ContinueInv(s: Sys, u: Id, then_: Then)
    requires Inv(s) && u !in s.held
    requires then_.Retire? && then_.finalizer in s.running ==> s.running[then_.finalizer].upload == u
    requires then_.Grant? ==>
               && then_.finalizer in s.running && s.running[then_.finalizer].upload == u
               && LeaseOk(s, u, then_.granted) && NotDispatched(s.log, u, then_.granted.requests)
               && forall g | g in s.running && s.running[g].upload == u && Leaseholder(s.running[g]) ::
                    s.running[g].pc.meta.requests != then_.granted.requests
    ensures Inv(Continue(s, u, then_))
  {
    hide HeldInv, RunInv, TicketInv, LeaseOk, NotDispatched;
    match then_
    case Nothing =>
    case Enqueue(_) => SameInv(s, Continue(s, u, then_));
    case Retire(f) => RetireInv(s, f);
    case Grant(f, m) =>
      GrantRun(s, f, m);
      GrantHeld(s, f, m);
      GrantTicket(s, f, m);
  }
}
