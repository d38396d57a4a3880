/** What the relay answers and stores, as its clients see it: resuming, credentials, lifetime and quota. */
module RelayAnswers {
  import opened Wrappers
  import opened RelayTypes
  import opened RelayProtocol
  import opened RelaySafety
  import opened RelaySteps
  import opened RelayRuns
  import opened RelayStore
  import RelayQuota

  // ---------- Resuming ----------

  /** The writes of one uninterrupted block. */
  function Writes(u: Id, n: nat): seq<Event> {
    seq(n, i => Write(u))
  }

  lemma {:induction false} RunConcat(s: Sys, a: seq<Event>, b: seq<Event>)
    ensures Run(s, a + b) == Run(Run(s, a), b)
    decreases |b|
  {
    hide Next;
    if |b| == 0 {
      assert a + b == a;
    } else {
      assert (a + b)[..|a + b| - 1] == a + b[..|b| - 1];
      RunConcat(s, a, b[..|b| - 1]);
    }
  }

  lemma RunOne(s: Sys, e: Event)
    ensures Run(s, [e]) == Next(s, e)
  {
    hide Next;
    assert [e][..0] == [];
  }

  lemma RunTwo(s: Sys, a: Event, b: Event)
    ensures Run(s, [a, b]) == Next(Next(s, a), b)
  {
    RunOne(s, a);
    hide Next;
    assert [a, b][..1] == [a];
  }

  lemma RunWrites(s: Sys, u: Id)
    ensures Run(s, Writes(u, 2)) == Next(Next(s, Write(u)), Write(u))
    ensures Run(s, Writes(u, 3)) == Next(Next(Next(s, Write(u)), Write(u)), Write(u))
  {
    RunTwo(s, Write(u), Write(u));
    hide Next;
    assert Writes(u, 2) == [Write(u), Write(u)] && Writes(u, 3)[..2] == Writes(u, 2);
  }

  function AcceptedBy(op: DiskOp): Bytes {
    if op.PutMeta? then op.accepts else []
  }

  /** One write of a block that has more. */
  lemma FirstWritten(s: Sys, u: Id)
    requires u in s.held && u in s.disk && u in s.accepted && |s.held[u].ops| > 1
    ensures var t := Next(s, Write(u));
            && u in t.held && u in t.disk && u in t.accepted && t.queue == s.queue
            && t.held[u] == Block(s.held[u].ops[1..], s.held[u].then_)
            && t.disk[u] == Apply(s.disk[u], s.held[u].ops[0])
            && t.accepted[u] == s.accepted[u] + AcceptedBy(s.held[u].ops[0])
  {
    hide Observe, Apply;
    assert s.accepted[u] + [] == s.accepted[u];
  }

  lemma LastWritten(s: Sys, u: Id)
    requires u in s.held && u in s.disk && u in s.accepted && |s.held[u].ops| == 1
    requires s.held[u].then_.Nothing? || s.held[u].then_.Enqueue?
    ensures var t := Next(s, Write(u));
            && u !in t.held && u in t.disk && u in t.accepted
            && t.disk[u] == Apply(s.disk[u], s.held[u].ops[0])
            && t.accepted[u] == s.accepted[u] + AcceptedBy(s.held[u].ops[0])
            && t.queue == s.queue + Jobs(u, s.held[u].then_)
  {
    hide Observe, Apply;
    assert s.accepted[u] + [] == s.accepted[u];
  }

  /** How an upload stands after an append has been written: more accepted bytes, and a job if it is complete. */
  ghost predicate Extended(s: Sys, t: Sys, u: Id, data: Bytes)
    requires u in s.disk && s.disk[u].meta.Some? && u in s.accepted
  {
    var m := s.disk[u].meta.value;
    && u !in t.held && u in t.disk && t.disk[u].meta.Some? && u in t.accepted
    && t.accepted[u] == s.accepted[u] + data
    && t.disk[u].meta.value.offset == m.offset + |data|
    && m.offset in t.disk[u].parts && t.disk[u].parts[m.offset] == data
    && (if m.offset + |data| < m.length then t.disk[u].meta.value.state == m.state && t.queue == s.queue
        else && t.disk[u].meta.value.state.Queued?
             && |t.queue| == |s.queue| + 1 && t.queue[..|s.queue|] == s.queue && t.queue[|s.queue|].upload == u)
  }

  /** The writes of the next chunk, and of the request if it is the last one. */
  lemma NextChunkPlan(m: Metadata, config: Config, data: Bytes, headers: Headers)
    requires MetaOk(m) && 1 <= |data| <= m.config.chunkSize && m.offset + |data| <= m.length
    ensures var r := AppendPlan(m, config, m.offset, |data|, data, headers);
            var ops := r.value.ops;
            && r.Ok? && |ops| >= 2 && ops[0] == PutPart(m.offset, data)
            && ops[1].PutMeta? && ops[1].accepts == data
            && ops[1].meta.offset == m.offset + |data| && ops[1].meta.state == m.state
            && (if m.offset + |data| == m.length
                then && r.value.then_.Enqueue? && |ops| == 3 && ops[2].PutMeta? && ops[2].accepts == []
                     && ops[2].meta.offset == m.length && ops[2].meta.state.Queued?
                else r.value.then_.Nothing? && |ops| == 2)
  {
    hide TilesFrom, TotalSize, ForwardedRequestHeaders, RequiresCallerAuthorization;
  }

  /** The block of the next chunk, undisturbed. */
  lemma ChunkWritten(s: Sys, u: Id, data: Bytes)
    requires u in s.held && u in s.disk && u in s.accepted && s.disk[u].meta.Some?
    requires var m, ops := s.disk[u].meta.value, s.held[u].ops;
             && |ops| >= 2 && ops[0] == PutPart(m.offset, data)
             && ops[1].PutMeta? && ops[1].accepts == data
             && ops[1].meta.offset == m.offset + |data| && ops[1].meta.state == m.state && m.offset + |data| <= m.length
             && (if m.offset + |data| == m.length
                 then && s.held[u].then_.Enqueue? && |ops| == 3 && ops[2].PutMeta? && ops[2].accepts == []
                      && ops[2].meta.offset == m.length && ops[2].meta.state.Queued?
                 else s.held[u].then_.Nothing? && |ops| == 2)
    ensures var m := s.disk[u].meta.value;
            Extended(s, Run(s, Writes(u, if m.offset + |data| == m.length then 3 else 2)), u, data)
  {
    RunWrites(s, u);
    hide Next, Run;
    var s1 := Next(s, Write(u));
    FirstWritten(s, u);
    assert s.accepted[u] + [] + data == s.accepted[u] + data && s.accepted[u] + data + [] == s.accepted[u] + data;
    if |s.held[u].ops| == 3 {
      FirstWritten(s1, u);
      LastWritten(Next(s1, Write(u)), u);
    } else {
      LastWritten(s1, u);
    }
  }

  lemma SameStart(s: Sys, begun: Sys, t: Sys, u: Id, data: Bytes)
    requires begun == s.(held := begun.held) && u in s.disk && s.disk[u].meta.Some? && u in s.accepted
    requires Extended(begun, t, u, data)
    ensures Extended(s, t, u, data)
  {
  }

  lemma ResumeHere(s: Sys, u: Id, config: Config, data: Bytes, headers: Headers)
    requires Inv(s) && Free(s, u) && s.disk[u].meta.Some?
    requires 1 <= |data| <= s.disk[u].meta.value.config.chunkSize
    requires s.disk[u].meta.value.offset + |data| <= s.disk[u].meta.value.length
    ensures var m := s.disk[u].meta.value;
            var writes := Writes(u, if m.offset + |data| == m.length then 3 else 2);
            u in s.accepted && Extended(s, Run(s, [Append(u, config, m.offset, |data|, data, headers)] + writes), u, data)
  {
    var m := s.disk[u].meta.value;
    StoredOk(s, u);
    NextChunkPlan(m, config, data, headers);
    var e := Append(u, config, m.offset, |data|, data, headers);
    NextClient(s, e);
    RunOne(s, e);
    RunConcat(s, [e], Writes(u, if m.offset + |data| == m.length then 3 else 2));
    hide AppendPlan, Inv, MetaOk, Next, Run, Loadable, DirOk, Writes, Extended;
    var plan := AppendPlan(m, config, m.offset, |data|, data, headers).value;
    var begun := Next(s, e);
    assert begun == s.(held := s.held[u := Block(plan.ops, plan.then_)]);
    ChunkWritten(begun, u, data);
    SameStart(s, begun, Run(begun, Writes(u, if m.offset + |data| == m.length then 3 else 2)), u, data);
  }

  /**
   * From every reachable state, the offset a conflict reports is one to resume at: sending there any
   * data that fits is accepted, and its writes extend the accepted bytes by exactly that data. The
   * write that completes the upload queues it, with one job.
   */
  lemma {:induction false} ResumeAtStoredOffset(
      maxPendingBytes: nat, events: seq<Event>, u: Id, config: Config, data: Bytes, headers: Headers)
    requires var s := Run(Init(maxPendingBytes), events);
             && Free(s, u) && s.disk[u].meta.Some?
             && 1 <= |data| <= s.disk[u].meta.value.config.chunkSize
             && s.disk[u].meta.value.offset + |data| <= s.disk[u].meta.value.length
    ensures var s := Run(Init(maxPendingBytes), events);
            var m := s.disk[u].meta.value;
            var writes := Writes(u, if m.offset + |data| == m.length then 3 else 2);
            u in s.accepted && Extended(s, Run(s, [Append(u, config, m.offset, |data|, data, headers)] + writes), u, data)
  {
    RunKeepsInv(maxPendingBytes, events);
    ResumeHere(Run(Init(maxPendingBytes), events), u, config, data, headers);
  }

  ghost predicate Requeues(s: Sys, t: Sys, u: Id)
    requires u in s.disk && s.disk[u].meta.Some? && u in s.accepted
  {
    var m := s.disk[u].meta.value;
    && u in t.accepted && t.accepted[u] == s.accepted[u]
    && (if m.state.Queued? || m.state.Forwarding? || m.state.Completed? then t == s
        else && u in t.disk && t.disk[u].meta.Some? && t.disk[u].meta.value.state.Queued?
             && |t.queue| == |s.queue| + 1 && t.queue[..|s.queue|] == s.queue && t.queue[|s.queue|].upload == u)
  }

  lemma WriteEvent(s: Sys, u: Id)
    ensures Next(s, Write(u)) == WriteStep(s, u)
  {
  }

  /** A queueing block, undisturbed. */
  lemma RequeueWritten(s: Sys, u: Id, config: Config, headers: Headers)
    requires Free(s, u) && u in s.accepted && s.disk[u].meta.Some?
    ensures Requeues(s, WriteStep(Begin(s, u, QueuePlan(s.disk[u].meta.value, config, headers)), u), u)
  {
    hide ForwardedRequestHeaders, RequiresCallerAuthorization, Observe;
    assert s.accepted[u] + [] == s.accepted[u];
  }

  lemma RetryPlan(m: Metadata, config: Config, data: Bytes, headers: Headers)
    requires Loadable(m) && m.chunks != [] && m.offset == m.length
    requires |data| == m.chunks[|m.chunks| - 1].size <= m.config.chunkSize
    requires m.chunks[|m.chunks| - 1].offset + |data| <= m.length
    ensures AppendPlan(m, config, m.chunks[|m.chunks| - 1].offset, |data|, data, headers) == Ok(QueuePlan(m, config, headers))
  {
    hide QueuePlan, TilesFrom, TotalSize;
  }

  lemma RetryHere(s: Sys, u: Id, config: Config, data: Bytes, headers: Headers)
    requires Inv(s) && Free(s, u) && s.disk[u].meta.Some? && s.disk[u].meta.value.chunks != []
    requires var m := s.disk[u].meta.value;
             m.offset == m.length && |data| == m.chunks[|m.chunks| - 1].size <= m.config.chunkSize
    ensures var m := s.disk[u].meta.value;
            u in s.accepted
            && Requeues(s, Run(s, [Append(u, config, m.chunks[|m.chunks| - 1].offset, |data|, data, headers), Write(u)]), u)
  {
    var m := s.disk[u].meta.value;
    StoredOk(s, u);
    var n := |m.chunks| - 1;
    TilesAt(m.chunks, 0, m.length, n);
    var e := Append(u, config, m.chunks[n].offset, |data|, data, headers);
    RetryPlan(m, config, data, headers);
    hide Inv, MetaOk, Loadable, DirOk, Run, Next, Requeues, QueuePlan, AppendPlan;
    NextClient(s, e);
    RunTwo(s, e, Write(u));
    WriteEvent(Next(s, e), u);
    RequeueWritten(s, u, config, headers);
  }

  /**
   * A client that has lost the acknowledgement of the last chunk sends it again: no byte is accepted
   * twice, and the upload is queued once, unless a request is already pending or done.
   */
  lemma {:induction false} LastChunkRetry(
      maxPendingBytes: nat, events: seq<Event>, u: Id, config: Config, data: Bytes, headers: Headers)
    requires var s := Run(Init(maxPendingBytes), events);
             && Free(s, u) && s.disk[u].meta.Some? && s.disk[u].meta.value.chunks != []
             && s.disk[u].meta.value.offset == s.disk[u].meta.value.length
    requires var m := Run(Init(maxPendingBytes), events).disk[u].meta.value;
             |data| == m.chunks[|m.chunks| - 1].size <= m.config.chunkSize
    ensures var s := Run(Init(maxPendingBytes), events);
            var m := s.disk[u].meta.value;
            var t := Run(s, [Append(u, config, m.chunks[|m.chunks| - 1].offset, |data|, data, headers), Write(u)]);
            u in s.accepted && Requeues(s, t, u)
  {
    RunKeepsInv(maxPendingBytes, events);
    RetryHere(Run(Init(maxPendingBytes), events), u, config, data, headers);
  }

  // ---------- What a stored upload keeps ----------

  /** Later metadata of the same upload. */
  ghost predicate Follows(a: Metadata, b: Metadata) {
    && b.length == a.length && b.createdAt == a.createdAt && a.offset <= b.offset && a.requests <= b.requests
    && (a.requiresCallerAuthorization ==> b.requiresCallerAuthorization)
    && (a.state.Completed? ==> b.state.Completed?)
  }

  ghost predicate DirFollows(d: Dir, d': Dir) {
    d'.meta.Some? ==> d.meta.Some? && Follows(d.meta.value, d'.meta.value)
  }

  lemma PerformFollows(s: Sys, u: Id)
    requires Inv(s) && u in s.held
    ensures u in s.disk && u in s.accepted && DirFollows(s.disk[u], Apply(s.disk[u], s.held[u].ops[0]))
  {
    if s.held[u].ops[0].PutMeta? { HeldWrite(s, u); }
  }

  /** Only writes, their failed syncs, partial deletions and creations change what is stored. */
  lemma StoredBy(s: Sys, e: Event)
    requires !e.Write? && !e.SyncFails? && !e.PartialDelete? && !e.CreateEnd?
    ensures Next(s, e).disk == s.disk
  {
    hide Next;
    if e.CreateBegin? || e.CreateScan? { ScanStores(s, e); } else { RelayQuota.QuietSteps(s, e); }
  }

  lemma ScanStores(s: Sys, e: Event)
    requires e.CreateBegin? || e.CreateScan?
    ensures Next(s, e).disk == s.disk
  {
    hide Pending;
  }

  lemma WrittenBy(s: Sys, e: Event)
    requires e.Write? || e.SyncFails?
    ensures var u := e.upload;
            Next(s, e).disk == if u in s.held && u in s.disk && u in s.accepted && s.held[u].ops != []
                               then s.disk[u := Apply(s.disk[u], s.held[u].ops[0])] else s.disk
  {
    hide Observe, Apply;
  }

  lemma DeletionFollows(s: Sys, e: Event, u: Id)
    requires e.PartialDelete? && u in s.disk
    ensures u in Next(s, e).disk && DirFollows(s.disk[u], Next(s, e).disk[u])
  {
    hide Restrict;
  }

  lemma DirFollowsItself(d: Dir)
    ensures DirFollows(d, d)
  {
  }

  lemma {:induction false} NextFollows(s: Sys, e: Event, u: Id)
    requires Inv(s) && u in s.disk
    ensures u in Next(s, e).disk && DirFollows(s.disk[u], Next(s, e).disk[u])
  {
    assert u < s.nextUpload;
    hide Inv, DirFollows, Next;
    DirFollowsItself(s.disk[u]);
    if e.Write? || e.SyncFails? {
      WrittenBy(s, e);
      if e.upload in s.held { PerformFollows(s, e.upload); }
    } else if e.CreateEnd? {
      CreateChanges(s, e);
    } else if e.PartialDelete? {
      DeletionFollows(s, e, u);
    } else {
      StoredBy(s, e);
    }
  }

  /** Over every continuation of every run. */
  lemma {:induction false} RunFollows(s: Sys, events: seq<Event>, u: Id)
    requires Inv(s) && u in s.disk
    ensures Inv(Run(s, events)) && u in Run(s, events).disk && DirFollows(s.disk[u], Run(s, events).disk[u])
    decreases |events|
  {
    hide Inv, Next;
    if |events| > 0 {
      RunFollows(s, events[..|events| - 1], u);
      NextInv(Run(s, events[..|events| - 1]), events[|events| - 1]);
      NextFollows(Run(s, events[..|events| - 1]), events[|events| - 1], u);
    }
  }

  // ---------- What a finalizer decides ----------

  /** A free slot takes the oldest job, with the headers it was queued with. */
  lemma StartsTheOldestJob(s: Sys)
    requires s.queue != [] && s.queue[0].upload in s.disk && s.nextFinalizer !in s.running
    ensures var t := Next(s, StartFinalizer);
            if |s.running| >= 1 then t == s
            else && t.queue == s.queue[1..] && s.nextFinalizer in t.running
                 && t.running[s.nextFinalizer] == Finalizer(s.queue[0].upload, s.queue[0].headers, Starting)
  {
  }

  /** The write a finalizer's block plans for its upload. */
  ghost predicate Plans(t: Sys, u: Id, m: Metadata) {
    u in t.held && |t.held[u].ops| > 0 && t.held[u].ops[0] == PutMeta(m, [])
  }

  /** The first block of a finalizer: a queued upload is forwarded only under the policy it was queued with. */
  lemma PreparesUnderItsPolicy(s: Sys, f: nat, current: Option<Config>)
    requires f in s.running && s.running[f].pc.Starting? && Free(s, s.running[f].upload)
    ensures var u := s.running[f].upload;
            var t := Next(s, Prepare(f, current));
            var stored := LoadMetadata(s.disk[u]);
            if stored.None? || !stored.value.state.Queued? then t.held == s.held && f !in t.running
            else
              var m := stored.value;
              Plans(t, u, if current.None? then m.(state := UploadState.Failed, failure := RelayDisabled)
                          else if current.value.fingerprint != m.config.fingerprint
                          then m.(state := UploadState.Failed, failure := ConfigurationChanged)
                          else m.(state := Forwarding, failure := NoFailure, lease := s.nextLease))
  {
    hide Loadable;
  }

  /** The recheck before dispatch: the origin is called only with the policy unchanged and every chunk stored in full. */
  lemma DispatchesUnderItsPolicy(s: Sys, f: nat, current: Option<Config>)
    requires f in s.running && s.running[f].pc.Holding? && s.running[f].upload in s.disk
    ensures var u, leased := s.running[f].upload, s.running[f].pc.meta;
            var t := Next(s, Recheck(f, current));
            && (t.log != s.log <==>
                  && current.Some? && current.value.fingerprint == leased.config.fingerprint
                  && forall c | c in leased.chunks :: c.offset in s.disk[u].parts && |s.disk[u].parts[c.offset]| == c.size)
            && (t.log != s.log ==> t.log == s.log + [Dispatched(u, leased.requests, leased.config.fingerprint)])
            && (!(current.Some? && current.value.fingerprint == leased.config.fingerprint)
                && Free(s, u) && LoadMetadata(s.disk[u]).Some? && s.disk[u].meta.value.state.Forwarding?
                && s.disk[u].meta.value.lease == leased.lease ==>
                  Plans(t, u, s.disk[u].meta.value.(state := UploadState.Failed,
                                                    failure := if current.None? then RelayDisabled else ConfigurationChanged)))
  {
    hide Loadable;
    var o := Dispatched(s.running[f].upload, s.running[f].pc.meta.requests, s.running[f].pc.meta.config.fingerprint);
    assert s.log != s.log + [o];
  }

  /** The end of a transfer under a current lease: completed if the origin accepted it, failed otherwise. */
  lemma SettlesByOutcome(s: Sys, f: nat, ok: bool)
    requires f in s.running && s.running[f].pc.Sending? && Free(s, s.running[f].upload)
    requires var stored := LoadMetadata(s.disk[s.running[f].upload]);
             stored.Some? && stored.value.state.Forwarding? && stored.value.lease == s.running[f].pc.meta.lease
    ensures var u := s.running[f].upload;
            var m := s.disk[u].meta.value;
            Plans(Next(s, Settle(f, ok)), u, if ok then m.(state := Completed, failure := NoFailure)
                                             else m.(state := UploadState.Failed, failure := OriginRejected))
  {
    hide Loadable;
  }

  // ---------- Lifetime ----------

  /** A cleanup removes a free directory exactly if it is unreadable, or its lifetime is over and it is not being sent. */
  lemma ExpiresIff(s: Sys, u: Id, now: int)
    requires Free(s, u)
    ensures var s' := Next(s, Expire(u, now));
            var stored := LoadMetadata(s.disk[u]);
            if stored.None? || (stored.value.state != Forwarding
                                && now - stored.value.createdAt >= stored.value.config.cleanupHours * 60 * 60 * 1000)
            then s' == s.(held := s.held[u := Block([Remove], Nothing)])
            else s' == s
  {
  }

  lemma FollowsKeep()
    ensures forall a, b | Follows(a, b) :: b.createdAt == a.createdAt
  {
  }

  lemma CreatedNow(s: Sys, t0: int, u: Id)
    requires u !in s.disk && u in Next(s, CreateEnd(t0)).disk
    ensures var d := Next(s, CreateEnd(t0)).disk[u]; d.meta.Some? && d.meta.value.createdAt == t0
  {
  }

  lemma StoredInv(s: Sys, u: Id)
    requires Inv(s) && u in s.disk
    ensures LoadMetadata(s.disk[u]) == s.disk[u].meta
  {
    StoredOk(s, u);
  }

  /**
   * Over every run: an upload created at t0 can be cleaned up at a moment exactly if the hours of its
   * stored configuration have passed since t0 and it is not being sent, or if it cannot be read.
   */
  lemma {:induction false} LifetimeStartsAtCreation(
      maxPendingBytes: nat, before: seq<Event>, t0: int, after: seq<Event>, u: Id, now: int)
    requires var s := Run(Init(maxPendingBytes), before);
             && u !in s.disk && u in Next(s, CreateEnd(t0)).disk
             && Free(Run(Next(s, CreateEnd(t0)), after), u)
    ensures var t := Run(Next(Run(Init(maxPendingBytes), before), CreateEnd(t0)), after);
            u in Next(t, Expire(u, now)).held <==>
              (t.disk[u].meta.Some? ==>
                 && !t.disk[u].meta.value.state.Forwarding?
                 && t0 + t.disk[u].meta.value.config.cleanupHours * 60 * 60 * 1000 <= now)
  {
    hide Next, Run, Inv, Loadable, Follows;
    RunKeepsInv(maxPendingBytes, before);
    var s := Run(Init(maxPendingBytes), before);
    var created := Next(s, CreateEnd(t0));
    NextInv(s, CreateEnd(t0));
    CreatedNow(s, t0, u);
    RunFollows(created, after, u);
    StoredInv(Run(created, after), u);
    ExpiresIff(Run(created, after), u, now);
    assert forall a, b | Follows(a, b) :: b.createdAt == a.createdAt by { FollowsKeep(); }
  }

  // ---------- Credentials of the caller ----------

  /** Headers which identify their caller. */
  predicate Credentialed(headers: Headers) {
    "authorization" in headers || "cookie" in headers || "x-api-key" in headers || "x-upload-token" in headers
  }

  lemma CredentialNames(headers: Headers)
    ensures RequiresCallerAuthorization(headers) <==> Credentialed(headers)
  {
    var names := CALLER_CREDENTIAL_HEADERS;
    assert names[0] in names && names[1] in names && names[2] in names && names[3] in names;
  }

  lemma AppendThen(m: Metadata, config: Config, offset: int, length: int, data: Bytes, headers: Headers)
    ensures var r := AppendPlan(m, config, offset, length, data, headers);
            r.Ok? && r.value.then_.Enqueue? ==> r.value.then_.headers == ForwardedRequestHeaders(headers, config)
  {
    hide ForwardedRequestHeaders, RequiresCallerAuthorization;
  }

  lemma ForwardedNames(headers: Headers, config: Config, name: string)
    ensures var carried := ForwardedRequestHeaders(headers, config);
            && (name in carried <==>
                  && (name == "cookie" || name == "x-api-key" || name == "x-upload-token" || name == "x-request-id"
                      || (name == "authorization" && config.forwardAuthorization))
                  && name in headers && headers[name] != "")
            && (name in carried ==> carried[name] == headers[name])
  {
    var names := FORWARDED_REQUEST_HEADERS;
    assert names[0] in names && names[1] in names && names[2] in names && names[3] in names && names[4] in names;
  }

  /** Of a queueing request a job carries exactly the named headers that have a value. */
  lemma {:induction false} JobsCarryForwardedHeaders(s: Sys, e: Event, name: string)
    requires (e.Append? || e.Finalize?) && e.upload !in s.held && e.upload in Next(s, e).held
    requires Next(s, e).held[e.upload].then_.Enqueue?
    ensures var carried := Next(s, e).held[e.upload].then_.headers;
            && (name in carried <==>
                  && (name == "cookie" || name == "x-api-key" || name == "x-upload-token" || name == "x-request-id"
                      || (name == "authorization" && e.config.forwardAuthorization))
                  && name in e.headers && e.headers[name] != "")
            && (name in carried ==> carried[name] == e.headers[name])
  {
    NextClient(s, e);
    hide Next, Loadable;
    if e.Append? {
      AppendThen(s.disk[e.upload].meta.value, e.config, e.offset, e.contentLength, e.data, e.headers);
      hide AppendPlan;
    }
    ForwardedNames(e.headers, e.config, name);
    hide ForwardedRequestHeaders;
  }

  ghost predicate EndsQueued(ops: seq<DiskOp>, m: Metadata, config: Config) {
    && |ops| > 0 && ops[|ops| - 1].PutMeta?
    && var queued := ops[|ops| - 1].meta;
       && queued.state.Queued? && queued.config == config && queued.failure.NoFailure?
       && queued.requests == m.requests + 1 && queued.length == m.length && queued.createdAt == m.createdAt
       && queued.offset == m.length
  }

  lemma QueueEndsQueued(m: Metadata, config: Config, headers: Headers)
    ensures var plan := QueuePlan(m, config, headers);
            plan.then_.Enqueue? && m.offset == m.length ==> EndsQueued(plan.ops, m, config)
  {
    hide ForwardedRequestHeaders, RequiresCallerAuthorization;
  }

  lemma AppendEndsQueued(m: Metadata, config: Config, offset: int, length: int, data: Bytes, headers: Headers)
    ensures var r := AppendPlan(m, config, offset, length, data, headers);
            r.Ok? && r.value.then_.Enqueue? ==> EndsQueued(r.value.ops, m, config)
  {
    hide ForwardedRequestHeaders, RequiresCallerAuthorization;
  }

  /** A queueing request stores its own policy, clears the last failure and counts itself, as its last write. */
  lemma {:induction false} RequestsStoreTheirPolicy(s: Sys, e: Event)
    requires (e.Append? || e.Finalize?) && e.upload !in s.held && e.upload in Next(s, e).held
    requires Next(s, e).held[e.upload].then_.Enqueue? && s.disk[e.upload].meta.Some?
    ensures EndsQueued(Next(s, e).held[e.upload].ops, s.disk[e.upload].meta.value, e.config)
  {
    NextClient(s, e);
    var m := s.disk[e.upload].meta.value;
    if e.Append? {
      AppendEndsQueued(m, e.config, e.offset, e.contentLength, e.data, e.headers);
    } else {
      QueueEndsQueued(m, e.config, e.headers);
    }
    hide Next, Loadable, AppendPlan, QueuePlan, EndsQueued;
  }

  ghost predicate Marked(d: Dir) {
    d.meta.Some? ==> d.meta.value.requiresCallerAuthorization
  }

  /** A block that will enqueue a job with credentials ends with the write that marks the upload. */
  ghost predicate MarksFirst(block: Block) {
    block.then_.Enqueue? && Credentialed(block.then_.headers) ==>
      && |block.ops| > 0
      && (forall i | 0 <= i < |block.ops| :: !block.ops[i].Sweep? && !block.ops[i].Remove?)
      && var last := block.ops[|block.ops| - 1];
         last.PutMeta? && last.meta.state.Queued? && last.meta.requiresCallerAuthorization
  }

  ghost predicate CredentialInv(s: Sys) {
    && (forall u | u in s.held :: MarksFirst(s.held[u]))
    && (forall j | j in s.queue && Credentialed(j.headers) :: j.upload in s.disk && Marked(s.disk[j.upload]))
  }

  lemma QueueMarks(m: Metadata, config: Config, headers: Headers)
    ensures var plan := QueuePlan(m, config, headers); plan.ops != [] ==> MarksFirst(Block(plan.ops, plan.then_))
    ensures QueuePlan(m, config, headers).ops == [] ==> QueuePlan(m, config, headers).then_ == Nothing
  {
    CredentialNames(ForwardedRequestHeaders(headers, config));
    hide ForwardedRequestHeaders, RequiresCallerAuthorization, Credentialed;
  }

  lemma AppendMarks(m: Metadata, config: Config, offset: int, length: int, data: Bytes, headers: Headers)
    requires AppendPlan(m, config, offset, length, data, headers).Ok?
    ensures var plan := AppendPlan(m, config, offset, length, data, headers).value;
            plan.ops != [] ==> MarksFirst(Block(plan.ops, plan.then_))
    ensures var plan := AppendPlan(m, config, offset, length, data, headers).value; plan.ops == [] ==> plan.then_ == Nothing
  {
    QueueMarks(m, config, headers);
    if !IsFinalChunkRetry(m, offset, length) && length != 0 { QueueMarks(Advanced(m, length), config, headers); }
    hide ForwardedRequestHeaders, RequiresCallerAuthorization, Credentialed;
  }

  lemma OtherPlansMark(d: Dir, now: int, f: nat, lease: nat, config: Option<Config>, failure: Option<FailureCode>)
    ensures var plan := ExpirePlan(d, now); MarksFirst(Block(plan.ops, plan.then_)) && !plan.then_.Enqueue?
    ensures var plan := RecoverPlan(d); MarksFirst(Block(plan.ops, plan.then_)) && (plan.then_.Enqueue? ==> plan.ops != [])
    ensures var plan := PreparePlan(d, config, f, lease); MarksFirst(Block(plan.ops, plan.then_)) && !plan.then_.Enqueue?
    ensures var plan := SettlePlan(d, f, lease, failure); MarksFirst(Block(plan.ops, plan.then_)) && !plan.then_.Enqueue?
    ensures d.meta.Some? ==> var plan := RemovePlan(d.meta.value); MarksFirst(Block(plan.ops, plan.then_)) && !plan.then_.Enqueue?
  {
    hide Loadable;
  }

  /** Beginning a block that marks first. */
  lemma BeginMarks(s: Sys, u: Id, plan: Plan)
    requires CredentialInv(s) && (plan.ops != [] ==> MarksFirst(Block(plan.ops, plan.then_)))
    requires plan.ops == [] ==> !plan.then_.Enqueue?
    ensures CredentialInv(Begin(s, u, plan))
  {
    hide MarksFirst, Credentialed, Marked;
  }

  /** Stored uploads that are marked stay so, hence so do the queued jobs. */
  lemma QueueFrame(s: Sys, e: Event)
    requires Inv(s) && CredentialInv(s)
    ensures forall j | j in s.queue && Credentialed(j.headers) :: j.upload in Next(s, e).disk && Marked(Next(s, e).disk[j.upload])
  {
    hide Inv, Next, Credentialed, MarksFirst;
    forall j | j in s.queue && Credentialed(j.headers) ensures j.upload in Next(s, e).disk && Marked(Next(s, e).disk[j.upload]) {
      assert Marked(s.disk[j.upload]);
      NextFollows(s, e, j.upload);
    }
  }

  lemma RestMarks(block: Block)
    requires MarksFirst(block) && |block.ops| > 1
    ensures MarksFirst(block.(ops := block.ops[1..]))
  {
    hide Credentialed;
    var rest := block.(ops := block.ops[1..]);
    assert forall i | 0 <= i < |rest.ops| :: rest.ops[i] == block.ops[i + 1];
  }

  lemma LastMarks(d: Dir, block: Block)
    requires MarksFirst(block) && |block.ops| == 1 && block.then_.Enqueue? && Credentialed(block.then_.headers)
    ensures Marked(Apply(d, block.ops[0]))
  {
  }

  lemma WriteVolatile(s: Sys, u: Id)
    requires u in s.held && u in s.disk && u in s.accepted && s.held[u].ops != []
    ensures var t := WriteStep(s, u);
            if |s.held[u].ops| == 1 then t.held == s.held - {u} && t.queue == s.queue + Jobs(u, s.held[u].then_)
            else t.held == s.held[u := s.held[u].(ops := s.held[u].ops[1..])] && t.queue == s.queue
  {
    hide Observe, Apply;
  }

  lemma WriteMarks(s: Sys, u: Id)
    requires Inv(s) && CredentialInv(s)
    ensures CredentialInv(WriteStep(s, u))
  {
    QueueFrame(s, Write(u));
    WriteEvent(s, u);
    if u !in s.held { return; }
    BlockFinalizer(s, u);
    WrittenBy(s, Write(u));
    hide Inv, HeldInv, Next, WriteStep, Credentialed, MarksFirst, Marked, Apply, DirFollows;
    WriteVolatile(s, u);
    if |s.held[u].ops| > 1 {
      RestMarks(s.held[u]);
    } else if s.held[u].then_.Enqueue? && Credentialed(s.held[u].then_.headers) {
      LastMarks(s.disk[u], s.held[u]);
    }
  }

  /** A fault releases, or rescues, a lock and queues nothing. */
  lemma FaultVolatile(s: Sys, e: Event)
    requires e.PartialDelete? || e.SyncFails? || e.SweepFails? || e.IoError? || e.ReadFails? || e.Crash?
    ensures var t := Next(s, e);
            && (forall j | j in t.queue :: j in s.queue)
            && (forall u | u in t.held :: u in s.held
                  && t.held[u] == if e.SweepFails? && e.upload == u then SweepFailsStep(s, u).held[u] else s.held[u])
  {
    hide Observe, Apply;
  }

  lemma SweepMarks(s: Sys, u: Id)
    requires u in s.held && MarksFirst(s.held[u])
    ensures u in SweepFailsStep(s, u).held && MarksFirst(SweepFailsStep(s, u).held[u])
  {
    hide Credentialed;
  }

  lemma FaultMarks(s: Sys, e: Event)
    requires Inv(s) && CredentialInv(s)
    requires e.PartialDelete? || e.SyncFails? || e.SweepFails? || e.IoError? || e.ReadFails? || e.Crash?
    ensures CredentialInv(Next(s, e))
  {
    hide Inv, Next, Credentialed, MarksFirst, Marked, SweepFailsStep;
    QueueFrame(s, e);
    FaultVolatile(s, e);
    if e.SweepFails? && e.upload in s.held { SweepMarks(s, e.upload); }
  }

  lemma ClientMarks(s: Sys, e: Event)
    requires CredentialInv(s) && (e.Append? || e.Finalize? || e.Delete? || e.Expire? || e.Recover?)
    ensures CredentialInv(Next(s, e))
  {
    NextClient(s, e);
    var u := e.upload;
    if Free(s, u) {
      hide Next, CredentialInv, MarksFirst;
      var d := s.disk[u];
      OtherPlansMark(d, if e.Expire? then e.now else 0, 0, 0, None, None);
      if LoadMetadata(d).Some? {
        var m := d.meta.value;
        if e.Append? && AppendPlan(m, e.config, e.offset, e.contentLength, e.data, e.headers).Ok? {
          AppendMarks(m, e.config, e.offset, e.contentLength, e.data, e.headers);
          BeginMarks(s, u, AppendPlan(m, e.config, e.offset, e.contentLength, e.data, e.headers).value);
        } else if e.Finalize? {
          QueueMarks(m, e.config, e.headers);
          BeginMarks(s, u, QueuePlan(m, e.config, e.headers));
        } else if e.Delete? {
          BeginMarks(s, u, RemovePlan(m));
        }
      }
      hide AppendPlan, QueuePlan, LoadMetadata, ExpirePlan, RecoverPlan, RemovePlan;
      if e.Expire? {
        BeginMarks(s, u, ExpirePlan(d, e.now));
      } else if e.Recover? {
        BeginMarks(s, u, RecoverPlan(d));
      }
    }
  }

  lemma VolatileMarks(s: Sys, t: Sys)
    requires CredentialInv(s) && t.disk == s.disk && t.held == s.held && t.queue == s.queue
    ensures CredentialInv(t)
  {
  }

  /** The steps that may begin a block of a finalizer. */
  lemma LockedMarks(s: Sys, e: Event)
    requires CredentialInv(s) && (e.Prepare? || e.Recheck? || e.Settle?)
    requires e.finalizer in s.running && s.running[e.finalizer].upload in s.disk
    ensures CredentialInv(Next(s, e))
  {
    hide CredentialInv, MarksFirst, PreparePlan, SettlePlan, Begin;
    var f, u := e.finalizer, s.running[e.finalizer].upload;
    var pc := s.running[f].pc;
    var lease := if pc.Holding? || pc.Sending? then pc.meta.lease else 0;
    if e.Prepare? {
      OtherPlansMark(s.disk[u], 0, f, s.nextLease, e.current, None);
      var ready := Lock(s, f).(nextLease := s.nextLease + 1);
      VolatileMarks(s, ready);
      BeginMarks(ready, u, PreparePlan(s.disk[u], e.current, f, s.nextLease));
    } else if e.Recheck? {
      var code := Some(if e.current.None? then RelayDisabled else ConfigurationChanged);
      OtherPlansMark(s.disk[u], 0, f, lease, None, code);
      VolatileMarks(s, Next(s, e).(held := s.held, queue := s.queue));
      VolatileMarks(s, Lock(s, f));
      BeginMarks(Lock(s, f), u, SettlePlan(s.disk[u], f, lease, code));
    } else {
      var failure := if e.ok then None else Some(OriginRejected);
      OtherPlansMark(s.disk[u], 0, f, lease, None, failure);
      if pc.Holding? || pc.Sending? {
        var observed := if e.ok then s.(log := s.log + [Accepted(u, pc.meta.requests, pc.meta.config.fingerprint)]) else s;
        VolatileMarks(s, Lock(observed, f));
        BeginMarks(Lock(observed, f), u, SettlePlan(s.disk[u], f, lease, failure));
      }
    }
  }

  lemma FinalizerMarks(s: Sys, e: Event)
    requires CredentialInv(s) && (e.StartFinalizer? || e.Prepare? || e.Recheck? || e.ReadChunk? || e.Settle?)
    ensures CredentialInv(Next(s, e))
  {
    hide MarksFirst, Credentialed, Marked, PreparePlan, SettlePlan;
    if (e.Prepare? || e.Recheck? || e.Settle?) && e.finalizer in s.running && s.running[e.finalizer].upload in s.disk {
      LockedMarks(s, e);
    }
  }

  lemma CreateMarks(s: Sys, e: Event)
    requires Inv(s) && CredentialInv(s) && (e.CreateBegin? || e.CreateScan? || e.CreateEnd? || e.CreateFail?)
    ensures CredentialInv(Next(s, e))
  {
    CreateChanges(s, e);
    assert s.nextUpload !in s.disk;
    hide Inv, Next, MarksFirst, Credentialed, Marked;
  }

  lemma {:induction false} NextMarks(s: Sys, e: Event)
    requires Inv(s) && CredentialInv(s)
    ensures CredentialInv(Next(s, e))
  {
    hide Inv, CredentialInv;
    if e.Write? {
      WriteMarks(s, e.upload);
    } else if e.PartialDelete? || e.SyncFails? || e.SweepFails? || e.IoError? || e.ReadFails? || e.Crash? {
      FaultMarks(s, e);
    } else if e.Append? || e.Finalize? || e.Delete? || e.Expire? || e.Recover? {
      ClientMarks(s, e);
    } else if e.CreateBegin? || e.CreateScan? || e.CreateEnd? || e.CreateFail? {
      CreateMarks(s, e);
    } else {
      FinalizerMarks(s, e);
    }
  }

  lemma {:induction false} RunMarks(maxPendingBytes: nat, events: seq<Event>)
    ensures Inv(Run(Init(maxPendingBytes), events)) && CredentialInv(Run(Init(maxPendingBytes), events))
    decreases |events|
  {
    RunKeepsInv(maxPendingBytes, events);
    if |events| > 0 {
      RunMarks(maxPendingBytes, events[..|events| - 1]);
      hide Inv, CredentialInv, Next;
      NextMarks(Run(Init(maxPendingBytes), events[..|events| - 1]), events[|events| - 1]);
    }
  }

  lemma RecoverMarked(t: Sys, u: Id)
    requires u in t.disk && u in t.accepted && Marked(t.disk[u]) && LoadMetadata(t.disk[u]) == t.disk[u].meta
    ensures var t' := Next(Next(t, Recover(u)), Write(u));
            && (u !in t.held ==> t'.queue == t.queue)
            && (Free(t, u) && t.disk[u].meta.Some? && t.disk[u].meta.value.state.Queued? ==>
                  u in t'.disk && t'.disk[u].meta == Some(t.disk[u].meta.value.(
                    state := UploadState.Failed, failure := RestartRequiresAuthorization)))
  {
    hide Observe, Loadable;
  }

  /**
   * Once a job with the credentials of its caller has been queued, no recovery in any continuation
   * enqueues that upload: found queued it fails and says that its caller must ask again.
   */
  lemma {:induction false} CredentialsAreNotReplayed(maxPendingBytes: nat, before: seq<Event>, job: Job, after: seq<Event>)
    requires job in Run(Init(maxPendingBytes), before).queue && Credentialed(job.headers)
    ensures var t := Run(Run(Init(maxPendingBytes), before), after);
            var u := job.upload;
            var t' := Run(t, [Recover(u), Write(u)]);
            && (u !in t.held ==> t'.queue == t.queue)
            && (Free(t, u) && t.disk[u].meta.Some? && t.disk[u].meta.value.state.Queued? ==>
                  u in t'.disk && t'.disk[u].meta == Some(t.disk[u].meta.value.(
                    state := UploadState.Failed, failure := RestartRequiresAuthorization)))
  {
    RunMarks(maxPendingBytes, before);
    var s := Run(Init(maxPendingBytes), before);
    var u := job.upload;
    assert Marked(s.disk[u]);
    hide CredentialInv, Next, Run;
    RunFollows(s, after, u);
    var t := Run(s, after);
    StoredOk(t, u);
    assert Marked(t.disk[u]);
    RunTwo(t, Recover(u), Write(u));
    hide Inv, Loadable;
    RecoverMarked(t, u);
  }
}
