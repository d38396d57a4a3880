/**
 * The lock-protected blocks of the upload relay as methods that write one file after another.
 * Each is proved to perform exactly the writes of its plan, in order, and nothing else.
 */
module RelayStore {
  import opened Wrappers
  import opened RelayTypes
  import opened RelayProtocol

  datatype Reply = Progress(offset: nat) | Finished(state: UploadState)

  function ApplyAll(d: Dir, ops: seq<DiskOp>): Dir
    decreases |ops|
  {
    if |ops| == 0 then d else ApplyAll(Apply(d, ops[0]), ops[1..])
  }

  function Jobs(u: Id, then_: Then): seq<Job> {
    if then_.Enqueue? then [Job(u, then_.headers)] else []
  }

  function Tagged(u: Id, ops: seq<DiskOp>): seq<(Id, DiskOp)> {
    seq(|ops|, i requires 0 <= i < |ops| => (u, ops[i]))
  }

  lemma {:induction false} ApplyAllAppend(d: Dir, ops: seq<DiskOp>, op: DiskOp)
    ensures ApplyAll(d, ops + [op]) == Apply(ApplyAll(d, ops), op)
    decreases |ops|
  {
    if |ops| > 0 {
      assert (ops + [op])[1..] == ops[1..] + [op];
      ApplyAllAppend(Apply(d, ops[0]), ops[1..], op);
    }
  }

  lemma {:induction false} ApplyAllConcat(d: Dir, a: seq<DiskOp>, b: seq<DiskOp>)
    ensures ApplyAll(d, a + b) == ApplyAll(ApplyAll(d, a), b)
    decreases |a|
  {
    if |a| == 0 {
      assert a + b == b;
    } else {
      assert (a + b)[1..] == a[1..] + b;
      ApplyAllConcat(Apply(d, a[0]), a[1..], b);
    }
  }

  lemma ApplyShort(d: Dir, a: DiskOp, b: DiskOp, c: DiskOp)
    ensures ApplyAll(d, [a, b]) == Apply(Apply(d, a), b)
    ensures ApplyAll(d, [a, b, c]) == Apply(Apply(Apply(d, a), b), c)
  {
    ApplyAllAppend(d, [a], b);
    assert [a] + [b] == [a, b];
    ApplyAllAppend(d, [a, b], c);
    assert [a, b] + [c] == [a, b, c];
  }

  /** Unreadable, or not being sent and older than its configured hours. */
  predicate Expired(d: Dir, now: int) {
    var stored := LoadMetadata(d);
    stored.None? || (stored.value.state != Forwarding
                     && now - stored.value.createdAt >= stored.value.config.cleanupHours * 60 * 60 * 1000)
  }

  function CountExpired(disk: map<Id, Dir>, entries: seq<Id>, now: int): nat
    decreases |entries|
  {
    if |entries| == 0 then 0
    else CountExpired(disk, entries[..|entries| - 1], now)
         + if entries[|entries| - 1] in disk && Expired(disk[entries[|entries| - 1]], now) then 1 else 0
  }

  /** The directories after a cleanup of these entries. */
  function Expunged(disk: map<Id, Dir>, entries: seq<Id>, now: int): map<Id, Dir> {
    map u | u in disk :: if u in entries && Expired(disk[u], now) then Dir(None, map[]) else disk[u]
  }

  lemma ExpungedStart(disk: map<Id, Dir>, now: int)
    ensures Expunged(disk, [], now) == disk
  {
    hide Expired;
  }

  lemma ExpungedStep(disk: map<Id, Dir>, entries: seq<Id>, u: Id, now: int)
    requires u in disk && u !in entries
    ensures u in Expunged(disk, entries, now) && Expunged(disk, entries, now)[u] == disk[u]
    ensures Expunged(disk, entries + [u], now)
         == Expunged(disk, entries, now)[u := if Expired(disk[u], now) then Dir(None, map[]) else disk[u]]
  {
    hide Expired;
  }

  /** Without crash or I/O error, the lock owner's writes take the directory to the end of its plan. */
  lemma {:induction false} UninterruptedBlock(s: Sys, u: Id, n: nat)
    requires u in s.held && u in s.disk && u in s.accepted && n == |s.held[u].ops| > 0
    ensures var after := Run(s, seq(n, i => Write(u)));
            u !in after.held && u in after.disk && after.disk[u] == ApplyAll(s.disk[u], s.held[u].ops)
  {
    BlockPrefix(s, u, n - 1);
    var writes := seq(n, i => Write(u));
    assert writes[..n - 1] == seq(n - 1, i => Write(u));
    var ops := s.held[u].ops;
    ApplyAllAppend(s.disk[u], ops[..n - 1], ops[n - 1]);
    assert ops[..n - 1] + [ops[n - 1]] == ops;
  }

  lemma {:induction false} BlockPrefix(s: Sys, u: Id, k: nat)
    requires u in s.held && u in s.disk && u in s.accepted && k < |s.held[u].ops|
    ensures var after := Run(s, seq(k, i => Write(u)));
            && u in after.held && u in after.disk && u in after.accepted
            && after.held[u] == s.held[u].(ops := s.held[u].ops[k..])
            && after.disk[u] == ApplyAll(s.disk[u], s.held[u].ops[..k])
  {
    if k > 0 {
      BlockPrefix(s, u, k - 1);
      var writes := seq(k, i => Write(u));
      assert writes[..k - 1] == seq(k - 1, i => Write(u));
      var ops := s.held[u].ops;
      ApplyAllAppend(s.disk[u], ops[..k - 1], ops[k - 1]);
      assert ops[..k - 1] + [ops[k - 1]] == ops[..k];
      assert ops[k - 1..][1..] == ops[k..];
    }
  }

  /** The complete upload's last chunk, once more. */
  predicate ResendsLastChunk(m: Metadata, offset: int, contentLength: int) {
    m.offset == m.length && m.chunks != []
    && offset == m.chunks[|m.chunks| - 1].offset && contentLength == m.chunks[|m.chunks| - 1].size
  }

  /** Found queued or forwarding. */
  predicate Interrupted(d: Dir) {
    LoadMetadata(d).Some? && (d.meta.value.state == Queued || d.meta.value.state == Forwarding)
  }

  function CountInterrupted(disk: map<Id, Dir>, entries: seq<Id>): nat
    decreases |entries|
  {
    if |entries| == 0 then 0
    else CountInterrupted(disk, entries[..|entries| - 1])
         + if entries[|entries| - 1] in disk && Interrupted(disk[entries[|entries| - 1]]) then 1 else 0
  }

  /** The directories after a recovery of these entries. */
  function RecoveredDirs(disk: map<Id, Dir>, entries: seq<Id>): map<Id, Dir> {
    map u | u in disk :: if u in entries then ApplyAll(disk[u], RecoverPlan(disk[u]).ops) else disk[u]
  }

  lemma RecoveredAt(disk: map<Id, Dir>, entries: seq<Id>)
    ensures var after := RecoveredDirs(disk, entries);
            && after.Keys == disk.Keys
            && forall u | u in disk :: after[u] == if u in entries then ApplyAll(disk[u], RecoverPlan(disk[u]).ops) else disk[u]
  {
    hide ApplyAll, RecoverPlan;
  }

  lemma RecoveredStart(disk: map<Id, Dir>)
    ensures RecoveredDirs(disk, []) == disk
  {
  }

  lemma RecoveredStep(disk: map<Id, Dir>, entries: seq<Id>, u: Id)
    requires u in disk && u !in entries
    ensures u in RecoveredDirs(disk, entries) && RecoveredDirs(disk, entries)[u] == disk[u]
    ensures RecoveredDirs(disk, entries + [u]) == RecoveredDirs(disk, entries)[u := ApplyAll(disk[u], RecoverPlan(disk[u]).ops)]
  {
    hide ApplyAll, RecoverPlan;
  }

  /** The jobs that recovering these entries enqueues. */
  function RecoveryJobs(disk: map<Id, Dir>, entries: seq<Id>): seq<Job>
    decreases |entries|
  {
    if |entries| == 0 then []
    else
      var last := entries[|entries| - 1];
      RecoveryJobs(disk, entries[..|entries| - 1]) + if last in disk then Jobs(last, RecoverPlan(disk[last]).then_) else []
  }

  lemma {:induction false} RecoveryJobsAre(disk: map<Id, Dir>, entries: seq<Id>)
    requires forall u | u in entries :: u in disk
    ensures forall j | j in RecoveryJobs(disk, entries) :: j.headers == map[]
    ensures forall u :: Job(u, map[]) in RecoveryJobs(disk, entries) <==> u in entries && RecoverPlan(disk[u]).then_.Enqueue?
    decreases |entries|
  {
    hide RecoverPlan;
    if |entries| > 0 {
      var front, last := entries[..|entries| - 1], entries[|entries| - 1];
      assert entries == front + [last];
      RecoveryJobsAre(disk, front);
      RecoverJob(disk[last]);
    }
  }

  class Store {
    var disk: map<Id, Dir>
    var queue: seq<Job>
    /** Every durable write since start, in order: the points between which a crash can fall. */
    ghost var trail: seq<(Id, DiskOp)>

    constructor ()
      ensures disk == map[] && queue == [] && trail == []
    {
      disk, queue, trail := map[], [], [];
    }

    twostate predicate Executed(u: Id, plan: Plan)
      reads this
      requires u in old(disk)
    {
      && disk == old(disk)[u := ApplyAll(old(disk)[u], plan.ops)]
      && queue == old(queue) + Jobs(u, plan.then_)
      && trail == old(trail) + Tagged(u, plan.ops)
    }

    // ---------- Single durable writes ----------

    method WritePart(u: Id, offset: nat, data: Bytes)
      requires u in disk
      modifies this`disk, this`trail
      ensures disk == old(disk)[u := Apply(old(disk)[u], PutPart(offset, data))]
      ensures trail == old(trail) + [(u, PutPart(offset, data))]
    {
      var d := disk[u];
      disk := disk[u := Dir(d.meta, d.parts[offset := data])];
      trail := trail + [(u, PutPart(offset, data))];
    }

    method WriteMetadata(u: Id, metadata: Metadata, ghost accepts: Bytes)
      requires u in disk
      modifies this`disk, this`trail
      ensures disk == old(disk)[u := Apply(old(disk)[u], PutMeta(metadata, accepts))]
      ensures trail == old(trail) + [(u, PutMeta(metadata, accepts))]
    {
      disk := disk[u := Dir(Some(metadata), disk[u].parts)];
      trail := trail + [(u, PutMeta(metadata, accepts))];
    }

    method RemoveChunks(u: Id)
      requires u in disk
      modifies this`disk, this`trail
      ensures disk == old(disk)[u := Apply(old(disk)[u], Sweep)]
      ensures trail == old(trail) + [(u, Sweep)]
    {
      disk := disk[u := Dir(disk[u].meta, map[])];
      trail := trail + [(u, Sweep)];
    }

    method RemoveUploadDirectory(u: Id)
      requires u in disk
      modifies this`disk, this`trail
      ensures disk == old(disk)[u := Apply(old(disk)[u], Remove)]
      ensures trail == old(trail) + [(u, Remove)]
    {
      disk := disk[u := Dir(None, map[])];
      trail := trail + [(u, Remove)];
    }

    method EnqueueFinalizer(u: Id, headers: Headers)
      modifies this`queue
      ensures queue == old(queue) + [Job(u, headers)]
    {
      queue := queue + [Job(u, headers)];
    }

    // ---------- Client blocks ----------

    method QueueFinalization(u: Id, metadata: Metadata, config: Config, requestHeaders: Headers) returns (reply: Reply)
      requires u in disk
      modifies this
      ensures Executed(u, QueuePlan(metadata, config, requestHeaders))
      ensures metadata.state.Completed? || metadata.state.Queued? || metadata.state.Forwarding? ==>
                disk == old(disk) && queue == old(queue) && trail == old(trail)
      ensures metadata.state.Uploading? || metadata.state.Failed? || metadata.state.Cancelled? ==>
                && disk[u].meta.Some? && disk[u].meta.value.state.Queued? && disk[u].parts == old(disk)[u].parts
                && disk[u].meta.value.config == config && disk[u].meta.value.failure.NoFailure?
                && disk[u].meta.value.offset == metadata.offset && disk[u].meta.value.chunks == metadata.chunks
                && queue == old(queue) + [Job(u, queue[|queue| - 1].headers)]
      ensures reply == Finished(if metadata.state.Completed? || metadata.state.Forwarding? then metadata.state else Queued)
    {
      if metadata.state.Completed? || metadata.state.Queued? || metadata.state.Forwarding? {
        return Finished(metadata.state);
      }
      var headers := ForwardedRequestHeaders(requestHeaders, config);
      var queued := metadata.(
        config := config,
        failure := NoFailure,
        requiresCallerAuthorization :=
          metadata.requiresCallerAuthorization || exists name | name in CALLER_CREDENTIAL_HEADERS :: name in headers,
        state := Queued,
        requests := metadata.requests + 1);
      WriteMetadata(u, queued, []);
      EnqueueFinalizer(u, headers);
      return Finished(queued.state);
    }

    method Append(u: Id, config: Option<Config>, offset: int, contentLength: int, data: Bytes, headers: Headers)
      returns (r: Result<Reply, RelayError>)
      requires u in disk
      modifies this
      ensures config.None? || LoadMetadata(old(disk)[u]).None? ==> r == Err(NotFound) && unchanged(this)
      ensures config.Some? && LoadMetadata(old(disk)[u]).Some? ==>
                var plan := AppendPlan(old(disk)[u].meta.value, config.value, offset, contentLength, data, headers);
                (match plan
                 case Ok(p) => r.Ok? && Executed(u, p)
                 case Err(e) => r == Err(e) && unchanged(this))
      ensures (r.Err? && r.error.OffsetConflict?) <==>
                var stored := LoadMetadata(old(disk)[u]);
                && config.Some? && stored.Some?
                && 0 <= offset <= MAX_SAFE_INTEGER && 0 <= contentLength <= MAX_SAFE_INTEGER
                && contentLength <= stored.value.config.chunkSize
                && offset != stored.value.offset && !ResendsLastChunk(stored.value, offset, contentLength)
      ensures r.Ok? <==>
                var stored := LoadMetadata(old(disk)[u]);
                && config.Some? && stored.Some?
                && 0 <= offset <= MAX_SAFE_INTEGER && 0 <= contentLength <= MAX_SAFE_INTEGER
                && contentLength <= stored.value.config.chunkSize
                && if ResendsLastChunk(stored.value, offset, contentLength) then |data| == contentLength
                   else && offset == stored.value.offset
                        && if contentLength == 0 then offset == stored.value.length
                           else offset + contentLength <= stored.value.length && |data| == contentLength
      ensures r.Err? ==> unchanged(this)
      ensures r.Err? && r.error.OffsetConflict? ==>
                r.error.offset == old(disk)[u].meta.value.offset && unchanged(this)
      ensures r.Ok? && r.value.Progress? ==>
                && r.value.offset == offset + contentLength && contentLength == |data|
                && disk[u].meta.Some? && r.value.offset == disk[u].meta.value.offset < disk[u].meta.value.length
                && offset in disk[u].parts && disk[u].parts[offset] == data && queue == old(queue)
    {
      hide ForwardedRequestHeaders, RequiresCallerAuthorization, Loadable;
      if config.None? { return Err(NotFound); }
      var loaded := LoadMetadata(disk[u]);
      if loaded.None? { return Err(NotFound); }
      var metadata := loaded.value;
      if offset < 0 || offset > MAX_SAFE_INTEGER { return Err(Invalid); }
      if contentLength < 0 || contentLength > MAX_SAFE_INTEGER || contentLength > metadata.config.chunkSize {
        return Err(Invalid);
      }
      var count := |metadata.chunks|;
      var isFinalChunkRetry :=
        metadata.offset == metadata.length && count > 0
        && offset == metadata.chunks[count - 1].offset && contentLength == metadata.chunks[count - 1].size;
      if offset != metadata.offset && !isFinalChunkRetry { return Err(OffsetConflict(metadata.offset)); }
      if isFinalChunkRetry {
        if |data| != contentLength { return Err(Invalid); }
        var reply := QueueFinalization(u, metadata, config.value, headers);
        return Ok(reply);
      }
      if contentLength == 0 {
        if metadata.offset != metadata.length { return Err(Invalid); }
        var reply := QueueFinalization(u, metadata, config.value, headers);
        return Ok(reply);
      }
      if metadata.offset + contentLength > metadata.length { return Err(Invalid); }
      if |data| != contentLength { return Err(Invalid); }
      metadata := WriteChunk(u, metadata, contentLength, data);
      if metadata.offset != metadata.length { return Ok(Progress(metadata.offset)); }
      ghost var writes := [PutPart(old(disk)[u].meta.value.offset, data), PutMeta(metadata, data)];
      ghost var queue := QueuePlan(metadata, config.value, headers).ops;
      ApplyAllConcat(old(disk)[u], writes, queue);
      assert Tagged(u, writes + queue) == Tagged(u, writes) + Tagged(u, queue);
      var reply := QueueFinalization(u, metadata, config.value, headers);
      return Ok(reply);
    }

    /** The chunk file, then the metadata that acknowledges it. */
    method WriteChunk(u: Id, metadata: Metadata, size: nat, data: Bytes) returns (advanced: Metadata)
      requires u in disk
      modifies this`disk, this`trail
      ensures advanced == Advanced(metadata, size)
      ensures var writes := [PutPart(metadata.offset, data), PutMeta(advanced, data)];
              disk == old(disk)[u := ApplyAll(old(disk)[u], writes)] && trail == old(trail) + Tagged(u, writes)
      ensures disk[u].meta == Some(advanced) && disk[u].parts == old(disk)[u].parts[metadata.offset := data]
    {
      WritePart(u, metadata.offset, data);
      advanced := metadata.(chunks := metadata.chunks + [Chunk(metadata.offset, size)], offset := metadata.offset + size);
      WriteMetadata(u, advanced, data);
      ghost var part, meta := PutPart(metadata.offset, data), PutMeta(advanced, data);
      ApplyShort(old(disk)[u], part, meta, meta);
    }

    method Finalize(u: Id, config: Option<Config>, headers: Headers) returns (r: Result<Reply, RelayError>)
      requires u in disk
      modifies this
      ensures config.None? || LoadMetadata(old(disk)[u]).None? ==> r == Err(NotFound) && unchanged(this)
      ensures config.Some? && LoadMetadata(old(disk)[u]).Some? ==>
                (match FinalizePlan(old(disk)[u].meta.value, config.value, headers)
                 case Ok(p) => r.Ok? && Executed(u, p)
                 case Err(e) => r == Err(e) && unchanged(this))
      ensures r == Err(Invalid) <==> config.Some? && LoadMetadata(old(disk)[u]).Some?
                                     && old(disk)[u].meta.value.offset != old(disk)[u].meta.value.length
      ensures r.Ok? ==> r.value == Finished(if old(disk)[u].meta.value.state.Completed? then Completed
                                            else if old(disk)[u].meta.value.state.Forwarding? then Forwarding else Queued)
    {
      if config.None? { return Err(NotFound); }
      var loaded := LoadMetadata(disk[u]);
      if loaded.None? { return Err(NotFound); }
      if loaded.value.offset != loaded.value.length { return Err(Invalid); }
      var reply := QueueFinalization(u, loaded.value, config.value, headers);
      return Ok(reply);
    }

    method Delete(u: Id) returns (found: bool)
      requires u in disk
      modifies this
      ensures found == LoadMetadata(old(disk)[u]).Some?
      ensures if found then Executed(u, RemovePlan(old(disk)[u].meta.value)) else unchanged(this)
      ensures found ==>
                var m := old(disk)[u].meta.value;
                disk[u] == if m.state.Forwarding?
                           then Dir(Some(m.(state := Cancelled, failure := ClientCancelled)), old(disk)[u].parts)
                           else Dir(None, map[])
    {
      var loaded := LoadMetadata(disk[u]);
      if loaded.None? { return false; }
      if loaded.value.state.Forwarding? {
        WriteMetadata(u, loaded.value.(failure := ClientCancelled, state := Cancelled), []);
        return true;
      }
      RemoveUploadDirectory(u);
      return true;
    }

    // ---------- Background blocks ----------

    /** The body of the cleanup loop for one directory. */
    method ExpireOne(u: Id, now: int) returns (wasRemoved: bool)
      requires u in disk
      modifies this`disk, this`trail
      ensures Executed(u, ExpirePlan(old(disk)[u], now))
      ensures wasRemoved == Expired(old(disk)[u], now)
    {
      var loaded := LoadMetadata(disk[u]);
      if loaded.Some? {
        if loaded.value.state.Forwarding? { return false; }
        var expiresAt := loaded.value.createdAt + loaded.value.config.cleanupHours * 60 * 60 * 1000;
        if expiresAt > now { return false; }
      }
      RemoveUploadDirectory(u);
      return true;
    }

    /** Exactly the expired directories disappear. */
    method CleanupExpired(entries: seq<Id>, now: int) returns (removed: nat)
      requires forall u | u in entries :: u in disk
      requires forall i, j | 0 <= i < j < |entries| :: entries[i] != entries[j]
      modifies this`disk, this`trail
      ensures disk == Expunged(old(disk), entries, now)
      ensures removed == CountExpired(old(disk), entries, now)
    {
      hide Expired, ExpirePlan, ApplyAll, LoadMetadata, Expunged;
      removed := 0;
      ExpungedStart(disk, now);
      for i := 0 to |entries|
        invariant disk == Expunged(old(disk), entries[..i], now)
        invariant removed == CountExpired(old(disk), entries[..i], now)
      {
        assert entries[..i + 1] == entries[..i] + [entries[i]];
        assert entries[..i + 1][..i] == entries[..i];
        assert entries[i] !in entries[..i];
        ExpungedStep(old(disk), entries[..i], entries[i], now);
        ghost var before := disk;
        var wasRemoved := ExpireOne(entries[i], now);
        ExpireResult(before[entries[i]], now);
        removed := removed + if wasRemoved then 1 else 0;
      }
      assert entries[..|entries|] == entries;
    }

    /** The body of the recovery loop for one directory; true when the upload needed recovery. */
    method RecoverOne(u: Id) returns (recovered: bool)
      requires u in disk
      modifies this
      ensures Executed(u, RecoverPlan(old(disk)[u]))
      ensures recovered <==> Interrupted(old(disk)[u])
      ensures LoadMetadata(old(disk)[u]).Some? ==>
                var m := old(disk)[u].meta.value;
                && (m.state.Cancelled? ==> disk[u] == Dir(None, map[]))
                && (m.state.Forwarding? ==> disk[u].meta == Some(m.(state := UploadState.Failed, failure := InterruptedForwarding)))
                && (m.state.Queued? && m.requiresCallerAuthorization ==>
                      disk[u].meta == Some(m.(state := UploadState.Failed, failure := RestartRequiresAuthorization)))
                && (m.state.Queued? && !m.requiresCallerAuthorization ==> queue == old(queue) + [Job(u, map[])])
    {
      var loaded := LoadMetadata(disk[u]);
      if loaded.None? { return false; }
      var metadata := loaded.value;
      if metadata.state.Cancelled? {
        RemoveUploadDirectory(u);
        return false;
      }
      if !metadata.state.Queued? && !metadata.state.Forwarding? { return false; }
      if metadata.state.Forwarding? {
        WriteMetadata(u, metadata.(failure := InterruptedForwarding, state := UploadState.Failed), []);
        return true;
      }
      if metadata.requiresCallerAuthorization {
        WriteMetadata(u, metadata.(failure := RestartRequiresAuthorization, state := UploadState.Failed), []);
        return true;
      }
      WriteMetadata(u, metadata.(state := Queued), []);
      EnqueueFinalizer(u, map[]);
      return true;
    }

    /** After recovery nothing is left in `Forwarding`, and exactly the credential-free queued uploads run again. */
    method RecoverInterruptedFinalizations(entries: seq<Id>) returns (recovered: nat)
      requires forall u | u in entries :: u in disk
      requires forall i, j | 0 <= i < j < |entries| :: entries[i] != entries[j]
      modifies this
      ensures disk.Keys == old(disk).Keys
      ensures forall u | u in disk :: disk[u] == if u in entries then ApplyAll(old(disk)[u], RecoverPlan(old(disk)[u]).ops)
                                                 else old(disk)[u]
      ensures forall u | u in entries && LoadMetadata(disk[u]).Some? ::
                !disk[u].meta.value.state.Forwarding? && !disk[u].meta.value.state.Cancelled?
                && (disk[u].meta.value.state.Queued? ==> !disk[u].meta.value.requiresCallerAuthorization)
      ensures old(queue) <= queue
      ensures forall j | j in queue[|old(queue)|..] :: j.headers == map[]
      ensures forall u :: Job(u, map[]) in queue[|old(queue)|..] <==>
                u in entries && LoadMetadata(disk[u]).Some? && disk[u].meta.value.state.Queued?
      ensures recovered == CountInterrupted(old(disk), entries)
    {
      hide RecoverPlan, ApplyAll, Loadable, Interrupted, RecoveredDirs;
      recovered := 0;
      RecoveredStart(disk);
      for i := 0 to |entries|
        invariant disk == RecoveredDirs(old(disk), entries[..i])
        invariant queue == old(queue) + RecoveryJobs(old(disk), entries[..i])
        invariant recovered == CountInterrupted(old(disk), entries[..i])
      {
        assert entries[..i + 1] == entries[..i] + [entries[i]];
        assert entries[i] !in entries[..i];
        assert entries[..i + 1][..i] == entries[..i];
        RecoveredStep(old(disk), entries[..i], entries[i]);
        var recoveredOne := RecoverOne(entries[i]);
        recovered := recovered + if recoveredOne then 1 else 0;
      }
      assert entries[..|entries|] == entries;
      RecoveredAt(old(disk), entries);
      assert queue[|old(queue)|..] == RecoveryJobs(old(disk), entries);
      RecoveryJobsAre(old(disk), entries);
      RecoverResults(old(disk), disk, entries);
    }

    // ---------- Finalizer blocks ----------

    /** Returns the leased metadata when this finalizer may dispatch. */
    method Prepare(u: Id, config: Option<Config>, ghost finalizer: nat, lease: nat) returns (prepared: Option<Metadata>)
      requires u in disk
      modifies this`disk, this`trail
      ensures var plan := PreparePlan(old(disk)[u], config, finalizer, lease);
              && Executed(u, plan)
              && prepared == if plan.then_.Grant? then Some(plan.then_.granted) else None
      ensures prepared.Some? <==>
                && LoadMetadata(old(disk)[u]).Some? && old(disk)[u].meta.value.state.Queued?
                && config.Some? && config.value.fingerprint == old(disk)[u].meta.value.config.fingerprint
      ensures LoadMetadata(old(disk)[u]).Some? && old(disk)[u].meta.value.state.Queued? ==>
                var m := old(disk)[u].meta.value;
                if prepared.Some? then disk[u].meta == prepared == Some(m.(state := Forwarding, failure := NoFailure, lease := lease))
                else disk[u].meta == Some(m.(state := UploadState.Failed,
                                             failure := if config.None? then RelayDisabled else ConfigurationChanged))
    {
      var loaded := LoadMetadata(disk[u]);
      if loaded.None? { return None; }
      var metadata := loaded.value;
      if !metadata.state.Queued? { return None; }
      if config.None? {
        WriteMetadata(u, metadata.(failure := RelayDisabled, state := UploadState.Failed), []);
        return None;
      }
      if metadata.config.fingerprint != config.value.fingerprint {
        WriteMetadata(u, metadata.(failure := ConfigurationChanged, state := UploadState.Failed), []);
        return None;
      }
      metadata := metadata.(failure := NoFailure, lease := lease, state := Forwarding);
      WriteMetadata(u, metadata, []);
      return Some(metadata);
    }

    /** `cleanup` says how deleting the sent chunks went; a failure there leaves the upload completed. */
    method SettleTransfer(u: Id, ghost finalizer: nat, lease: nat, failure: Option<FailureCode>, cleanup: Cleanup)
      requires u in disk
      modifies this`disk, this`trail
      ensures !Completes(old(disk)[u], lease, failure) || cleanup.CleanedUp? ==>
                Executed(u, SettlePlan(old(disk)[u], finalizer, lease, failure))
      ensures Completes(old(disk)[u], lease, failure) && !cleanup.CleanedUp? ==>
                disk == old(disk)[u := Rescued(old(disk)[u], cleanup)]
                && |trail| > |old(trail)| && trail[|old(trail)|] == (u, SettlePlan(old(disk)[u], finalizer, lease, failure).ops[0])
      ensures LoadMetadata(old(disk)[u]).Some? ==>
                var m := old(disk)[u].meta.value;
                && (m.state.Cancelled? ==> disk[u] == Dir(None, map[]))
                && (!m.state.Cancelled? && !(m.state.Forwarding? && m.lease == lease) ==> disk == old(disk))
                && (m.state.Forwarding? && m.lease == lease ==>
                      match failure
                      case Some(code) => disk[u] == Dir(Some(m.(state := UploadState.Failed, failure := code)), old(disk)[u].parts)
                      case None => cleanup.CleanedUp? ==>
                        disk[u] == Dir(Some(m.(state := Completed, failure := NoFailure, chunks := [])), map[]))
    {
      var loaded := LoadMetadata(disk[u]);
      if loaded.None? { return; }
      var metadata := loaded.value;
      if metadata.state.Cancelled? {
        RemoveUploadDirectory(u);
        return;
      }
      if !metadata.state.Forwarding? || metadata.lease != lease { return; }
      if failure.Some? {
        WriteMetadata(u, metadata.(failure := failure.value, state := UploadState.Failed), []);
        return;
      }
      metadata := metadata.(failure := NoFailure, state := Completed);
      WriteMetadata(u, metadata, []);
      if cleanup.SweepFailed? {
        disk := disk[u := Dir(disk[u].meta, Restrict(disk[u].parts, cleanup.kept))];
        WriteMetadata(u, metadata.(failure := ChunkCleanupPending), []);
        return;
      }
      RemoveChunks(u);
      ghost var cleared := PutMeta(metadata.(chunks := []), []);
      ApplyShort(old(disk)[u], PutMeta(metadata, []), Sweep, cleared);
      metadata := metadata.(chunks := []);
      if cleanup.LastWriteFailed? {
        metadata := metadata.(failure := ChunkCleanupPending);
      }
      WriteMetadata(u, metadata, []);
    }
  }

  /** Deleting the chunk files may leave some, or the write that clears the chunk list may fail. */
  datatype Cleanup = CleanedUp | SweepFailed(kept: set<nat>) | LastWriteFailed

  predicate Completes(d: Dir, lease: nat, failure: Option<FailureCode>) {
    LoadMetadata(d).Some? && d.meta.value.state.Forwarding? && d.meta.value.lease == lease && failure.None?
  }

  /** A completed upload that notes its pending cleanup. */
  function Rescued(d: Dir, cleanup: Cleanup): Dir
    requires d.meta.Some?
  {
    var done := d.meta.value.(state := Completed, failure := ChunkCleanupPending);
    if cleanup.SweepFailed? then Dir(Some(done), Restrict(d.parts, cleanup.kept)) else Dir(Some(done.(chunks := [])), map[])
  }

  /** The catch branch is a run of the lock owner's steps and faults. */
  lemma {:induction false} RescuedBlock(s: Sys, u: Id, f: nat, lease: nat, cleanup: Cleanup)
    requires u in s.held && u in s.disk && u in s.accepted && Completes(s.disk[u], lease, None) && !cleanup.CleanedUp?
    requires var plan := SettlePlan(s.disk[u], f, lease, None); s.held[u] == Block(plan.ops, plan.then_)
    ensures var fault := if cleanup.SweepFailed? then PartialDelete(u, true, cleanup.kept) else Write(u);
            var after := Run(s, [Write(u), fault, SweepFails(u), Write(u)]);
            u !in after.held && u in after.disk && after.disk[u] == Rescued(s.disk[u], cleanup)
  {
    hide Run, WriteStep, SweepFailsStep, PartialDeleteStep, SettlePlan, Restrict, Loadable;
    var fault := if cleanup.SweepFailed? then PartialDelete(u, true, cleanup.kept) else Write(u);
    RunFour(s, Write(u), fault, SweepFails(u), Write(u));
    var s1 := WriteStep(s, u);
    assert s1 == Next(s, Write(u));
    CompletedWrite(s, u, f, lease);
    RescueSteps(s1, u, cleanup);
  }

  lemma RunFour(s: Sys, a: Event, b: Event, c: Event, d: Event)
    ensures Run(s, [a, b, c, d]) == Next(Next(Next(Next(s, a), b), c), d)
  {
    hide Next;
    assert [a, b, c, d][..3] == [a, b, c] && [a, b, c][..2] == [a, b] && [a, b][..1] == [a] && [a][..0] == [];
    assert Run(s, [a]) == Next(s, a);
    assert Run(s, [a, b]) == Next(Run(s, [a]), b);
    assert Run(s, [a, b, c]) == Next(Run(s, [a, b]), c);
  }

  lemma CompletedWrite(s: Sys, u: Id, f: nat, lease: nat)
    requires u in s.held && u in s.disk && u in s.accepted && Completes(s.disk[u], lease, None)
    requires var plan := SettlePlan(s.disk[u], f, lease, None); s.held[u] == Block(plan.ops, plan.then_)
    ensures var done := s.disk[u].meta.value.(state := Completed, failure := NoFailure);
            var s1 := WriteStep(s, u);
            && u in s1.disk && u in s1.accepted && s1.disk[u] == Dir(Some(done), s.disk[u].parts)
            && u in s1.held && s1.held[u] == Block([Sweep, PutMeta(done.(chunks := []), [])], Retire(f))
  {
    hide Loadable;
    var done := s.disk[u].meta.value.(state := Completed, failure := NoFailure);
    assert s.held[u].ops[1..] == [Sweep, PutMeta(done.(chunks := []), [])];
  }

  lemma RescueSteps(s: Sys, u: Id, cleanup: Cleanup)
    requires u in s.held && u in s.disk && u in s.accepted && !cleanup.CleanedUp?
    requires s.disk[u].meta.Some? && s.disk[u].meta.value.state.Completed? && s.held[u].then_.Retire?
    requires s.held[u].ops == [Sweep, PutMeta(s.disk[u].meta.value.(chunks := []), [])]
    ensures var s2 := if cleanup.SweepFailed? then PartialDeleteStep(s, u, true, cleanup.kept) else WriteStep(s, u);
            var s4 := WriteStep(SweepFailsStep(s2, u), u);
            var done := s.disk[u].meta.value.(failure := ChunkCleanupPending);
            && u !in s4.held && u in s4.disk
            && s4.disk[u] == if cleanup.SweepFailed? then Dir(Some(done), Restrict(s.disk[u].parts, cleanup.kept))
                             else Dir(Some(done.(chunks := [])), map[])
  {
    hide Restrict;
    var m := s.disk[u].meta.value;
    if cleanup.SweepFailed? {
      var s2 := PartialDeleteStep(s, u, true, cleanup.kept);
      assert s2.held[u].ops[0] == Sweep;
      assert SweepFailsStep(s2, u).held[u].ops == [PutMeta(m.(failure := ChunkCleanupPending), [])];
    } else {
      var s2 := WriteStep(s, u);
      assert s2.held[u].ops == [PutMeta(m.(chunks := []), [])];
      assert SweepFailsStep(s2, u).held[u].ops == [PutMeta(m.(chunks := [], failure := ChunkCleanupPending), [])];
    }
  }

  lemma ExpireResult(d: Dir, now: int)
    ensures ApplyAll(d, ExpirePlan(d, now).ops) == if Expired(d, now) then Dir(None, map[]) else d
  {
  }

  lemma RecoverJob(d: Dir)
    ensures RecoverPlan(d).then_.Enqueue? ==> RecoverPlan(d).then_.headers == map[]
  {
  }

  lemma RecoverResults(before: map<Id, Dir>, disk: map<Id, Dir>, entries: seq<Id>)
    requires forall u | u in entries :: u in before && u in disk && disk[u] == ApplyAll(before[u], RecoverPlan(before[u]).ops)
    ensures forall u | u in entries && LoadMetadata(disk[u]).Some? ::
              !disk[u].meta.value.state.Forwarding? && !disk[u].meta.value.state.Cancelled?
              && (disk[u].meta.value.state.Queued? ==> !disk[u].meta.value.requiresCallerAuthorization)
    ensures forall u | u in entries ::
              RecoverPlan(before[u]).then_.Enqueue? <==> LoadMetadata(disk[u]).Some? && disk[u].meta.value.state.Queued?
  {
    hide RecoverPlan, ApplyAll, Loadable;
    forall u | u in entries
      ensures LoadMetadata(disk[u]).Some? ==>
                !disk[u].meta.value.state.Forwarding? && !disk[u].meta.value.state.Cancelled?
                && (disk[u].meta.value.state.Queued? ==> !disk[u].meta.value.requiresCallerAuthorization)
      ensures RecoverPlan(before[u]).then_.Enqueue? <==> LoadMetadata(disk[u]).Some? && disk[u].meta.value.state.Queued?
    {
      RecoverResult(before[u]);
    }
  }

  lemma RecoverResult(d: Dir)
    ensures var d' := ApplyAll(d, RecoverPlan(d).ops);
            && (LoadMetadata(d').Some? ==>
                  && !d'.meta.value.state.Forwarding? && !d'.meta.value.state.Cancelled?
                  && (d'.meta.value.state.Queued? ==> !d'.meta.value.requiresCallerAuthorization))
            && (RecoverPlan(d).then_.Enqueue? <==> LoadMetadata(d').Some? && d'.meta.value.state.Queued?)
  {
    var ops := RecoverPlan(d).ops;
    if ops != [] {
      assert ops[1..] == [];
    }
  }

  // ---------- Reading the stored chunks ----------

  /** finish() before dispatch: either every chunk file is present in full, or nothing is sent. */
  method ReadBody(d: Dir, chunks: seq<Chunk>) returns (body: Option<Bytes>)
    ensures body.Some? <==> AllChunksPresent(d, chunks)
    ensures body.Some? ==> body.value == Concatenated(d, chunks)
  {
    for i := 0 to |chunks|
      invariant forall c | c in chunks[..i] :: c.offset in d.parts && |d.parts[c.offset]| == c.size
    {
      if chunks[i].offset !in d.parts || |d.parts[chunks[i].offset]| != chunks[i].size {
        assert chunks[i] in chunks;
        return None;
      }
    }
    assert chunks[..|chunks|] == chunks;
    var bytes: Bytes := [];
    for i := 0 to |chunks|
      invariant bytes == Concatenated(d, chunks[..i])
    {
      assert chunks[..i + 1][..i] == chunks[..i];
      assert chunks[i] in chunks;
      bytes := bytes + d.parts[chunks[i].offset];
    }
    return Some(bytes);
  }

  function Concatenated(d: Dir, chunks: seq<Chunk>): Bytes
    requires AllChunksPresent(d, chunks)
    decreases |chunks|
  {
    if |chunks| == 0 then []
    else
      var last := chunks[|chunks| - 1];
      Concatenated(d, chunks[..|chunks| - 1]) + d.parts[last.offset]
  }

  /** A gap-free chunk list that is stored in full has exactly its declared number of bytes. */
  lemma {:induction false} ConcatenatedLength(d: Dir, chunks: seq<Chunk>)
    requires AllChunksPresent(d, chunks)
    ensures |Concatenated(d, chunks)| == TotalSize(chunks)
    decreases |chunks|
  {
    if |chunks| > 0 {
      ConcatenatedLength(d, chunks[..|chunks| - 1]);
    }
  }

  // ---------- The quota scan ----------

  function CountPending(disk: map<Id, Dir>, entries: seq<Id>): nat
    decreases |entries|
  {
    if |entries| == 0 then 0
    else CountPending(disk, entries[..|entries| - 1])
         + if entries[|entries| - 1] in disk && Pending(disk[entries[|entries| - 1]]) then 1 else 0
  }

  function ReservedBytes(disk: map<Id, Dir>, entries: seq<Id>): nat
    decreases |entries|
  {
    if |entries| == 0 then 0
    else
      var last := entries[|entries| - 1];
      ReservedBytes(disk, entries[..|entries| - 1])
      + if last in disk && Pending(disk[last]) then disk[last].meta.value.length else 0
  }

  method PendingUploadStats(disk: map<Id, Dir>, entries: seq<Id>) returns (count: nat, reservedBytes: nat)
    ensures count == CountPending(disk, entries) && reservedBytes == ReservedBytes(disk, entries)
  {
    count, reservedBytes := 0, 0;
    for i := 0 to |entries|
      invariant count == CountPending(disk, entries[..i]) && reservedBytes == ReservedBytes(disk, entries[..i])
    {
      assert entries[..i + 1][..i] == entries[..i];
      if entries[i] in disk {
        var loaded := LoadMetadata(disk[entries[i]]);
        if loaded.Some? && !loaded.value.state.Completed? {
          count := count + 1;
          reservedBytes := reservedBytes + loaded.value.length;
        }
      }
    }
    assert entries[..|entries|] == entries;
  }
}
