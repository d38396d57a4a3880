/** Durable state of one resumable upload and the writes each lock-protected block makes to it. */
module RelayTypes {
  import opened Wrappers

  const MAX_SAFE_INTEGER := 9_007_199_254_740_991
  const HOUR_MS := 3_600_000

  type Byte = b: int | 0 <= b < 256
  type Bytes = seq<Byte>
  type Headers = map<string, string>

  /** The declared length after create() validated it. */
  type UploadLength = n: nat | 1 <= n <= MAX_SAFE_INTEGER witness 1

  datatype Config = Config(
    chunkSize: nat,
    maxFileSize: nat,
    cleanupHours: nat,
    forwardAuthorization: bool,
    fingerprint: string)

  datatype UploadState = Uploading | Queued | Forwarding | Completed | Failed | Cancelled

  datatype FailureCode =
    | NoFailure
    | RelayDisabled
    | ConfigurationChanged
    | OriginRejected
    | InterruptedForwarding
    | RestartRequiresAuthorization
    | ClientCancelled
    | ChunkCleanupPending

  datatype Chunk = Chunk(offset: nat, size: nat)

  /** `requests` is a history variable: how often a client moved this upload into `Queued`. */
  datatype Metadata = Metadata(
    length: nat,
    offset: nat,
    chunks: seq<Chunk>,
    state: UploadState,
    config: Config,
    createdAt: int,
    lease: nat,
    requiresCallerAuthorization: bool,
    failure: FailureCode,
    requests: nat)

  /** One upload directory: upload.json and the chunk files, keyed by their offset. */
  datatype Dir = Dir(meta: Option<Metadata>, parts: map<nat, Bytes>)

  datatype RelayError = NotFound | Invalid | OffsetConflict(offset: nat)

  /**
   * One durable effect. `PutMeta.accepts` is a history annotation: the client bytes which
   * this metadata write acknowledges. `Sweep` deletes chunk files and `Remove` the directory;
   * both delete file by file, so a crash can leave any subset behind.
   */
  datatype DiskOp =
    | PutPart(offset: nat, data: Bytes)
    | PutMeta(meta: Metadata, accepts: Bytes)
    | Sweep
    | Remove

  /** What a block does to volatile state once its last durable write succeeded. */
  datatype Then =
    | Nothing
    | Enqueue(headers: Headers)
    | Grant(finalizer: nat, granted: Metadata)
    | Retire(finalizer: nat)

  datatype Plan = Plan(ops: seq<DiskOp>, then_: Then)

  predicate SafeNat(n: int) {
    0 <= n <= MAX_SAFE_INTEGER
  }

  /** The chunk validation loop of loadMetadata: gap-free, non-empty and inside the upload. */
  predicate TilesFrom(chunks: seq<Chunk>, start: nat, length: nat)
    decreases |chunks|
  {
    |chunks| == 0
    || (&& chunks[0].offset == start
        && 1 <= chunks[0].size
        && start + chunks[0].size <= length
        && TilesFrom(chunks[1..], start + chunks[0].size, length))
  }

  function TotalSize(chunks: seq<Chunk>): nat
    decreases |chunks|
  {
    if |chunks| == 0 then 0 else TotalSize(chunks[..|chunks| - 1]) + chunks[|chunks| - 1].size
  }

  /** What loadMetadata accepts; every other file content reads as "not found". */
  predicate Loadable(m: Metadata) {
    && 1 <= m.length <= MAX_SAFE_INTEGER
    && m.offset <= m.length
    && TilesFrom(m.chunks, 0, m.length)
    && (TotalSize(m.chunks) == m.offset || (m.state.Completed? && m.chunks == []))
  }

  function LoadMetadata(d: Dir): Option<Metadata> {
    if d.meta.Some? && Loadable(d.meta.value) then d.meta else None
  }

  /** An upload counts against the host quota until it is completed or removed. */
  predicate Pending(d: Dir) {
    LoadMetadata(d).Some? && !d.meta.value.state.Completed?
  }

  // ---------- Forwarded headers ----------

  const FORWARDED_REQUEST_HEADERS := ["authorization", "cookie", "x-api-key", "x-upload-token", "x-request-id"]
  const CALLER_CREDENTIAL_HEADERS := ["authorization", "cookie", "x-api-key", "x-upload-token"]

  function ForwardedRequestHeaders(headers: Headers, config: Config): Headers {
    map name | name in headers && name in FORWARDED_REQUEST_HEADERS && headers[name] != ""
               && (name == "authorization" ==> config.forwardAuthorization) :: headers[name]
  }

  predicate RequiresCallerAuthorization(headers: Headers) {
    exists name | name in CALLER_CREDENTIAL_HEADERS :: name in headers
  }

  // ---------- Plans: the writes of each lock-protected block ----------

  function Requeued(m: Metadata, config: Config, headers: Headers): Metadata {
    m.(config := config,
       failure := NoFailure,
       requiresCallerAuthorization := m.requiresCallerAuthorization || RequiresCallerAuthorization(headers),
       state := Queued,
       requests := m.requests + 1)
  }

  /** queueFinalization: a no-op while a request is pending or done, otherwise an explicit (re)queue. */
  function QueuePlan(m: Metadata, config: Config, requestHeaders: Headers): Plan {
    if m.state.Completed? || m.state.Queued? || m.state.Forwarding? then
      Plan([], Nothing)
    else
      var headers := ForwardedRequestHeaders(requestHeaders, config);
      Plan([PutMeta(Requeued(m, config, headers), [])], Enqueue(headers))
  }

  predicate IsFinalChunkRetry(m: Metadata, offset: int, contentLength: int) {
    && m.offset == m.length
    && |m.chunks| > 0
    && offset == m.chunks[|m.chunks| - 1].offset
    && contentLength == m.chunks[|m.chunks| - 1].size
  }

  function Advanced(m: Metadata, size: nat): Metadata {
    m.(chunks := m.chunks + [Chunk(m.offset, size)], offset := m.offset + size)
  }

  function AppendPlan(m: Metadata, config: Config, offset: int, contentLength: int, data: Bytes, headers: Headers)
    : Result<Plan, RelayError>
  {
    if !SafeNat(offset) then Err(Invalid)
    else if !SafeNat(contentLength) || contentLength > m.config.chunkSize then Err(Invalid)
    else if offset != m.offset && !IsFinalChunkRetry(m, offset, contentLength) then Err(OffsetConflict(m.offset))
    else if IsFinalChunkRetry(m, offset, contentLength) then
      if |data| != contentLength then Err(Invalid) else Ok(QueuePlan(m, config, headers))
    else if contentLength == 0 then
      if m.offset != m.length then Err(Invalid) else Ok(QueuePlan(m, config, headers))
    else if m.offset + contentLength > m.length || |data| != contentLength then Err(Invalid)
    else
      var advanced := Advanced(m, contentLength);
      var writes := [PutPart(m.offset, data), PutMeta(advanced, data)];
      if advanced.offset != advanced.length then Ok(Plan(writes, Nothing))
      else
        var queue := QueuePlan(advanced, config, headers);
        Ok(Plan(writes + queue.ops, queue.then_))
  }

  function FinalizePlan(m: Metadata, config: Config, headers: Headers): Result<Plan, RelayError> {
    if m.offset != m.length then Err(Invalid) else Ok(QueuePlan(m, config, headers))
  }

  function Failing(m: Metadata, code: FailureCode): Metadata {
    m.(state := UploadState.Failed, failure := code)
  }

  /** DELETE: a forwarding upload is only marked; its finalizer removes it later. */
  function RemovePlan(m: Metadata): Plan {
    if m.state.Forwarding? then
      Plan([PutMeta(m.(state := Cancelled, failure := ClientCancelled), [])], Nothing)
    else
      Plan([Remove], Nothing)
  }

  function ExpirePlan(d: Dir, now: int): Plan {
    match LoadMetadata(d)
    case None => Plan([Remove], Nothing)
    case Some(m) =>
      if m.state.Forwarding? then Plan([], Nothing)
      else if m.createdAt + m.config.cleanupHours * HOUR_MS > now then Plan([], Nothing)
      else Plan([Remove], Nothing)
  }

  /** Startup recovery of one upload. A transfer found `Forwarding` is indeterminate and is never replayed. */
  function RecoverPlan(d: Dir): Plan {
    match LoadMetadata(d)
    case None => Plan([], Nothing)
    case Some(m) =>
      if m.state.Cancelled? then Plan([Remove], Nothing)
      else if m.state.Forwarding? then Plan([PutMeta(Failing(m, InterruptedForwarding), [])], Nothing)
      else if m.state.Queued? then
        if m.requiresCallerAuthorization then Plan([PutMeta(Failing(m, RestartRequiresAuthorization), [])], Nothing)
        else Plan([PutMeta(m, [])], Enqueue(map[]))
      else Plan([], Nothing)
  }

  function Leased(m: Metadata, lease: nat): Metadata {
    m.(state := Forwarding, failure := NoFailure, lease := lease)
  }

  /** First block of finalizeInBackground: the durable Queued -> Forwarding write under a fresh lease. */
  function PreparePlan(d: Dir, config: Option<Config>, finalizer: nat, lease: nat): Plan {
    match LoadMetadata(d)
    case None => Plan([], Retire(finalizer))
    case Some(m) =>
      if !m.state.Queued? then Plan([], Retire(finalizer))
      else if config.None? then Plan([PutMeta(Failing(m, RelayDisabled), [])], Retire(finalizer))
      else if config.value.fingerprint != m.config.fingerprint then
        Plan([PutMeta(Failing(m, ConfigurationChanged), [])], Retire(finalizer))
      else Plan([PutMeta(Leased(m, lease), [])], Grant(finalizer, Leased(m, lease)))
  }

  /**
   * Last block of finalizeInBackground, also used when the recheck before dispatch fails.
   * `failure` is None after an accepted transfer.
   */
  function SettlePlan(d: Dir, finalizer: nat, lease: nat, failure: Option<FailureCode>): Plan {
    match LoadMetadata(d)
    case None => Plan([], Retire(finalizer))
    case Some(m) =>
      if m.state.Cancelled? then Plan([Remove], Retire(finalizer))
      else if !m.state.Forwarding? || m.lease != lease then Plan([], Retire(finalizer))
      else if failure.Some? then Plan([PutMeta(Failing(m, failure.value), [])], Retire(finalizer))
      else
        var done := m.(state := Completed, failure := NoFailure);
        Plan([PutMeta(done, []), Sweep, PutMeta(done.(chunks := []), [])], Retire(finalizer))
  }

  // ---------- Facts about chunk lists ----------

  lemma {:induction false} TilesAppend(chunks: seq<Chunk>, start: nat, length: nat, size: nat)
    requires TilesFrom(chunks, start, length)
    requires 1 <= size && start + TotalSize(chunks) + size <= length
    ensures TilesFrom(chunks + [Chunk(start + TotalSize(chunks), size)], start, length)
    decreases |chunks|
  {
    var extended := chunks + [Chunk(start + TotalSize(chunks), size)];
    if chunks == [] {
      assert extended[1..] == [];
    } else {
      TotalSizeSplit(chunks);
      TilesAppend(chunks[1..], start + chunks[0].size, length, size);
      assert extended[1..] == chunks[1..] + [Chunk(start + TotalSize(chunks), size)];
    }
  }

  lemma {:induction false} TotalSizeSplit(chunks: seq<Chunk>)
    requires |chunks| > 0
    ensures TotalSize(chunks) == chunks[0].size + TotalSize(chunks[1..])
    decreases |chunks|
  {
    if |chunks| == 1 {
      assert chunks[..0] == chunks[1..] == [];
    } else {
      var front := chunks[..|chunks| - 1];
      TotalSizeSplit(front);
      assert front[1..] == chunks[1..][..|chunks[1..]| - 1];
    }
  }

  /** In a gap-free list, chunk k starts where the first k chunks end. */
  lemma {:induction false} TilesAt(chunks: seq<Chunk>, start: nat, length: nat, k: nat)
    requires TilesFrom(chunks, start, length) && k < |chunks|
    ensures chunks[k].offset == start + TotalSize(chunks[..k])
    ensures 1 <= chunks[k].size && chunks[k].offset + chunks[k].size <= length
    ensures TotalSize(chunks[..k + 1]) == TotalSize(chunks[..k]) + chunks[k].size
    decreases |chunks|
  {
    assert chunks[..k + 1][..k] == chunks[..k];
    if k > 0 {
      TilesAt(chunks[1..], start + chunks[0].size, length, k - 1);
      TotalSizeSplit(chunks[..k]);
      assert chunks[..k][1..] == chunks[1..][..k - 1];
    }
  }
}
