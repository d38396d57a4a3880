/**
 * What every step of the upload relay keeps: chunks tile the accepted bytes, every explicit
 * request is dispatched at most once, and a finalizer streams exactly the accepted bytes.
 */
module RelaySafety {
  import opened Wrappers
  import opened RelayTypes
  import opened RelayProtocol

  // ---------- Metadata ----------

  ghost predicate MetaOk(m: Metadata) {
    && Loadable(m)
    && (!m.state.Uploading? ==> m.offset == m.length)
    && (m.state.Uploading? <==> m.requests == 0)
  }

  /** How one metadata write may follow another. */
  ghost predicate MetaStep(a: Metadata, b: Metadata) {
    && b.length == a.length && b.createdAt == a.createdAt
    && a.offset <= b.offset
    && (a.requiresCallerAuthorization ==> b.requiresCallerAuthorization)
    && (a.state.Completed? ==> b.state.Completed?)
    && (b.requests == a.requests || (b.requests == a.requests + 1 && b.state.Queued?))
    && (b.requests == a.requests ==>
          && b.config == a.config
          && (b.state.Queued? ==> a.state.Queued?)
          && (b.state.Forwarding? ==> a.state.Queued?))
    && (b.lease != a.lease ==> b.state.Forwarding?)
  }

  // ---------- Directories and planned writes ----------

  /** A chunk file below the acknowledged length holds acknowledged bytes; only the next one may be stray. */
  ghost predicate PartOk(accepted: Bytes, k: nat, data: Bytes) {
    k < |accepted| ==> k + |data| <= |accepted| && accepted[k..k + |data|] == data
  }

  ghost predicate DirOk(d: Dir, accepted: Bytes) {
    && (d.meta.Some? ==> MetaOk(d.meta.value) && d.meta.value.offset == |accepted|)
    && (forall k | k in d.parts :: k <= |accepted| && PartOk(accepted, k, d.parts[k]))
  }

  /** Performing the remaining writes in order keeps the directory consistent after each of them. */
  ghost predicate OpsOk(d: Dir, accepted: Bytes, ops: seq<DiskOp>)
    decreases |ops|
  {
    |ops| > 0 ==>
      match ops[0]
      case PutPart(k, data) =>
        && d.meta.Some? && k == d.meta.value.offset && |data| > 0 && k + |data| <= d.meta.value.length
        && OpsOk(Apply(d, ops[0]), accepted, ops[1..])
      case PutMeta(m, data) =>
        && d.meta.Some? && MetaStep(d.meta.value, m) && MetaOk(m) && m.offset == |accepted| + |data|
        && (|data| > 0 ==> |accepted| in d.parts && d.parts[|accepted|] == data)
        && OpsOk(Apply(d, ops[0]), accepted + data, ops[1..])
      case Sweep =>
        && d.meta.Some? && d.meta.value.state.Completed?
        && |ops| == 2 && ops[1].PutMeta? && ops[1].accepts == [] && ops[1].meta.state.Completed?
        && MetaStep(d.meta.value, ops[1].meta) && MetaOk(ops[1].meta) && ops[1].meta.offset == |accepted|
      case Remove => |ops| == 1
  }

  ghost predicate CompletionsAccepted(log: seq<Observation>, u: Id, ops: seq<DiskOp>) {
    forall i | 0 <= i < |ops| && ops[i].PutMeta? && ops[i].meta.state.Completed? ::
      Accepted(u, ops[i].meta.requests, ops[i].meta.config.fingerprint) in log
  }

  /** Only the block that will grant the lease writes `Forwarding`. */
  ghost predicate LeaseWritesGranted(ops: seq<DiskOp>, then_: Then) {
    forall i | 0 <= i < |ops| && ops[i].PutMeta? && ops[i].meta.state.Forwarding? :: then_.Grant?
  }

  // ---------- System invariant ----------

  ghost predicate DiskInv(s: Sys) {
    && s.disk.Keys == s.accepted.Keys
    && (forall u | u in s.disk :: u < s.nextUpload && DirOk(s.disk[u], s.accepted[u]))
  }

  ghost predicate Granting(s: Sys, u: Id, block: Block, f: nat, m: Metadata) {
    && f in s.running && s.running[f].upload == u && s.running[f].pc.Locked?
    && block.ops == [PutMeta(m, [])] && m.state.Forwarding? && m.lease < s.nextLease
    && u in s.disk && s.disk[u].meta.Some? && s.disk[u].meta.value.state.Queued?
    && m.requests == s.disk[u].meta.value.requests && m.config == s.disk[u].meta.value.config
    && (forall g | g in s.running && s.running[g].upload == u && Leaseholder(s.running[g]) ::
          s.running[g].pc.meta.lease != m.lease)
  }

  ghost predicate HeldInv(s: Sys) {
    forall u | u in s.held ::
      && u in s.disk && u in s.accepted
      && |s.held[u].ops| > 0
      && OpsOk(s.disk[u], s.accepted[u], s.held[u].ops)
      && CompletionsAccepted(s.log, u, s.held[u].ops)
      && LeaseWritesGranted(s.held[u].ops, s.held[u].then_)
      && (s.held[u].then_.Grant? ==> Granting(s, u, s.held[u], s.held[u].then_.finalizer, s.held[u].then_.granted))
      && (s.held[u].then_.Retire? ==>
            var f := s.held[u].then_.finalizer;
            f in s.running && s.running[f].upload == u && s.running[f].pc.Locked?)
  }

  predicate Leaseholder(f: Finalizer) {
    f.pc.Holding? || f.pc.Sending?
  }

  /** What a finalizer knows about the upload it was granted, whatever happened to it since. */
  ghost predicate LeaseOk(s: Sys, u: Id, m: Metadata) {
    && u in s.disk && u in s.accepted
    && MetaOk(m) && m.state.Forwarding? && m.lease < s.nextLease
    && |s.accepted[u]| == m.length
    && Requested(u, m.requests, m.config.fingerprint) in s.log
    && (s.disk[u].meta.Some? ==>
          var now := s.disk[u].meta.value;
          && now.length == m.length
          && m.requests <= now.requests
          && (now.state.Queued? ==> m.requests < now.requests)
          && (now.state.Forwarding? && now.lease == m.lease ==> m.requests == now.requests && m.config == now.config))
  }

  ghost predicate BodyOk(accepted: Bytes, m: Metadata, sent: nat, body: Bytes) {
    && sent <= |m.chunks|
    && TotalSize(m.chunks[..sent]) <= |accepted|
    && body == accepted[..TotalSize(m.chunks[..sent])]
  }

  ghost predicate RunInv(s: Sys) {
    && (forall f | f in s.running :: f < s.nextFinalizer && s.running[f].upload in s.disk)
    && (forall f | f in s.running && Leaseholder(s.running[f]) :: LeaseOk(s, s.running[f].upload, s.running[f].pc.meta))
    && (forall f | f in s.running && s.running[f].pc.Sending? ::
          s.running[f].upload in s.accepted &&
          BodyOk(s.accepted[s.running[f].upload], s.running[f].pc.meta, s.running[f].pc.sent, s.running[f].pc.body))
    && (forall f, g | f in s.running && g in s.running && f != g && Leaseholder(s.running[f]) && Leaseholder(s.running[g])
                      && s.running[f].upload == s.running[g].upload ::
          s.running[f].pc.meta.requests != s.running[g].pc.meta.requests)
  }

  predicate IsDispatch(o: Observation, u: Id, ticket: nat) {
    o.Dispatched? && o.upload == u && o.ticket == ticket
  }

  ghost predicate NotDispatched(log: seq<Observation>, u: Id, ticket: nat) {
    forall o | o in log :: !IsDispatch(o, u, ticket)
  }

  ghost predicate TicketInv(s: Sys) {
    && (forall u | u in s.disk && s.disk[u].meta.Some? ::
          var m := s.disk[u].meta.value;
          && (m.requests > 0 ==> Requested(u, m.requests, m.config.fingerprint) in s.log)
          && (m.state.Queued? ==> NotDispatched(s.log, u, m.requests))
          && (m.state.Completed? ==> Accepted(u, m.requests, m.config.fingerprint) in s.log))
    && (forall f | f in s.running && s.running[f].pc.Holding? ::
          NotDispatched(s.log, s.running[f].upload, s.running[f].pc.meta.requests))
    && (forall f | f in s.running && s.running[f].pc.Sending? ::
          Dispatched(s.running[f].upload, s.running[f].pc.meta.requests, s.running[f].pc.meta.config.fingerprint) in s.log)
    && LogInv(s)
  }

  /** Tickets in the history belong to known uploads and never exceed the durable request counter. */
  ghost predicate LogInv(s: Sys) {
    forall o | o in s.log ::
      && o.upload in s.disk
      && (s.disk[o.upload].meta.Some? ==> o.ticket <= s.disk[o.upload].meta.value.requests)
      && (o.Dispatched? ==> Requested(o.upload, o.ticket, o.fingerprint) in s.log)
      && (o.Accepted? ==> Dispatched(o.upload, o.ticket, o.fingerprint) in s.log)
  }

  /** No request is dispatched twice and no ticket stands for two requests. */
  ghost predicate AtMostOnce(log: seq<Observation>) {
    forall i, j | 0 <= i < j < |log| && log[i].upload == log[j].upload && log[i].ticket == log[j].ticket ::
      !(log[i].Dispatched? && log[j].Dispatched?) && !(log[i].Requested? && log[j].Requested?)
  }

  ghost predicate Inv(s: Sys) {
    DiskInv(s) && HeldInv(s) && RunInv(s) && TicketInv(s)
  }

  // ---------- Plans are sound ----------

  lemma RequeueOk(d: Dir, accepted: Bytes, config: Config, headers: Headers)
    requires DirOk(d, accepted) && d.meta.Some? && d.meta.value.offset == d.meta.value.length
    ensures OpsOk(d, accepted, QueuePlan(d.meta.value, config, headers).ops)
  {
    var plan := QueuePlan(d.meta.value, config, headers);
    assert accepted + [] == accepted;
    if plan.ops != [] {
      assert plan.ops[1..] == [];
    }
  }

  lemma AdvancedOk(m: Metadata, size: nat)
    requires MetaOk(m) && m.state.Uploading? && 1 <= size && m.offset + size <= m.length
    ensures MetaOk(Advanced(m, size)) && MetaStep(m, Advanced(m, size))
  {
    TilesAppend(m.chunks, 0, m.length, size);
    assert Advanced(m, size).chunks[..|m.chunks|] == m.chunks;
  }

  lemma AppendOk(d: Dir, accepted: Bytes, config: Config, offset: int, length: int, data: Bytes, headers: Headers)
    requires DirOk(d, accepted) && d.meta.Some?
    requires AppendPlan(d.meta.value, config, offset, length, data, headers).Ok?
    ensures OpsOk(d, accepted, AppendPlan(d.meta.value, config, offset, length, data, headers).value.ops)
  {
    var m := d.meta.value;
    var ops := AppendPlan(m, config, offset, length, data, headers).value.ops;
    if IsFinalChunkRetry(m, offset, length) || length == 0 {
      RequeueOk(d, accepted, config, headers);
    } else {
      var advanced := Advanced(m, length);
      AdvancedOk(m, length);
      var d1 := Apply(d, ops[0]);
      var d2 := Apply(d1, ops[1]);
      hide ForwardedRequestHeaders, RequiresCallerAuthorization, TilesFrom, TotalSize;
      assert PartOk(accepted + data, m.offset, data);
      var rest := ops[2..];
      assert ops[1..][1..] == rest;
      assert OpsOk(d2, accepted + data, rest) by {
        if rest != [] {
          assert rest == QueuePlan(advanced, config, headers).ops;
          assert rest[1..] == [];
        }
      }
      assert ops[1..][0] == ops[1];
      assert OpsOk(d1, accepted, ops[1..]);
    }
  }

  lemma SingleWriteOk(d: Dir, accepted: Bytes, m: Metadata)
    requires DirOk(d, accepted) && d.meta.Some?
    requires MetaStep(d.meta.value, m) && MetaOk(m) && m.offset == d.meta.value.offset
    ensures OpsOk(d, accepted, [PutMeta(m, [])])
  {
    assert [PutMeta(m, [])][1..] == [];
  }

  lemma SettleOk(d: Dir, accepted: Bytes, f: nat, lease: nat, failure: Option<FailureCode>)
    requires DirOk(d, accepted)
    ensures OpsOk(d, accepted, SettlePlan(d, f, lease, failure).ops)
  {
    var plan := SettlePlan(d, f, lease, failure);
    if plan.ops != [] && !plan.ops[0].Remove? {
      var m := d.meta.value;
      if failure.Some? {
        SingleWriteOk(d, accepted, Failing(m, failure.value));
      } else {
        var done := m.(state := Completed, failure := NoFailure);
        assert accepted + [] == accepted;
        assert plan.ops[1..] == [Sweep, PutMeta(done.(chunks := []), [])];
        assert OpsOk(Apply(d, plan.ops[0]), accepted, plan.ops[1..]);
      }
    }
  }

  /** Deleting chunk files never invalidates the writes that are still planned behind a deletion. */
  lemma PartialDeleteOk(d: Dir, d': Dir, accepted: Bytes, ops: seq<DiskOp>)
    requires DirOk(d, accepted) && OpsOk(d, accepted, ops)
    requires |ops| > 0 && (ops[0].Sweep? || ops[0].Remove?)
    requires d'.meta == d.meta || (ops[0].Remove? && d'.meta.None?)
    requires forall k | k in d'.parts :: k in d.parts && d'.parts[k] == d.parts[k]
    ensures DirOk(d', accepted) && OpsOk(d', accepted, ops)
  {
  }

  /** One planned write keeps the directory consistent and leaves a sound remainder. */
  lemma PerformOk(d: Dir, accepted: Bytes, ops: seq<DiskOp>)
    requires DirOk(d, accepted) && OpsOk(d, accepted, ops) && |ops| > 0
    ensures var accepted' := if ops[0].PutMeta? then accepted + ops[0].accepts else accepted;
            DirOk(Apply(d, ops[0]), accepted') && OpsOk(Apply(d, ops[0]), accepted', ops[1..])
  {
    match ops[0]
    case PutPart(k, data) =>
    case PutMeta(m, data) =>
      var grown := accepted + data;
      forall k | k in d.parts
        ensures PartOk(grown, k, d.parts[k])
      {
        if k < |accepted| {
          assert PartOk(accepted, k, d.parts[k]);
          assert grown[k..k + |d.parts[k]|] == accepted[k..k + |d.parts[k]|];
        }
      }
    case Sweep =>
      assert ops[1..][1..] == [];
      assert accepted + [] == accepted;
    case Remove =>
  }
}
