/**
 * The upload relay of one host as a transition system. Durable state (directories) survives a
 * crash; locks, the finalizer queue and running finalizers do not. A lock owner performs its
 * planned writes one at a time, so a crash or an I/O error can fall between any two of them.
 */
module RelayProtocol {
  import opened Wrappers
  import opened RelayTypes

  type Id = nat

  const MAX_PENDING_UPLOADS := 32
  const MAX_CONCURRENT_FINALIZERS := 1

  datatype Block = Block(ops: seq<DiskOp>, then_: Then)
  datatype Job = Job(upload: Id, headers: Headers)

  /** `Locked`: one of the finalizer's own blocks owns the upload lock. */
  datatype Pc =
    | Starting
    | Locked
    | Holding(meta: Metadata)
    | Sending(meta: Metadata, sent: nat, body: Bytes)

  datatype Finalizer = Finalizer(upload: Id, headers: Headers, pc: Pc)

  /** create() between its lock and its write: the directory scan visits entries in any order. */
  datatype Creating = Creating(length: UploadLength, config: Config, remaining: set<Id>, counted: map<Id, nat>,
                               count: nat, reservedBytes: nat)

  datatype Observation =
    | Requested(upload: Id, ticket: nat, fingerprint: string)
    | Dispatched(upload: Id, ticket: nat, fingerprint: string)
    | Accepted(upload: Id, ticket: nat, fingerprint: string)

  datatype Sys = Sys(
    disk: map<Id, Dir>,
    accepted: map<Id, Bytes>,           // history: bytes acknowledged to the client
    log: seq<Observation>,              // history: requests, origin requests and their success
    maxPendingBytes: nat,               // the fixed host limit
    nextUpload: nat,
    nextLease: nat,
    nextFinalizer: nat,
    held: map<Id, Block>,
    queue: seq<Job>,
    running: map<nat, Finalizer>,
    creating: Option<Creating>)

  datatype Event =
    | CreateBegin(length: int, config: Config)
    | CreateScan(upload: Id)
    | CreateEnd(now: int)
    | CreateFail
    | Append(upload: Id, config: Config, offset: int, contentLength: int, data: Bytes, headers: Headers)
    | Finalize(upload: Id, config: Config, headers: Headers)
    | Delete(upload: Id)
    | Expire(upload: Id, now: int)
    | Recover(upload: Id)
    | StartFinalizer
    | Prepare(finalizer: nat, current: Option<Config>)
    | Recheck(finalizer: nat, current: Option<Config>)
    | ReadChunk(finalizer: nat)
    | Settle(finalizer: nat, ok: bool)
    | Write(upload: Id)
    | PartialDelete(upload: Id, keepMeta: bool, keepParts: set<nat>)
    | SyncFails(upload: Id)      // a write took effect, but its directory sync failed
    | SweepFails(upload: Id)
    | IoError(upload: Id)
    | ReadFails(finalizer: nat)  // a finalizer cannot read the metadata: it rejects and is gone
    | Crash

  // ---------- Steps ----------

  function Init(maxPendingBytes: nat): Sys {
    Sys(map[], map[], [], maxPendingBytes, 0, 0, 0, map[], [], map[], None)
  }

  predicate Free(s: Sys, u: Id) {
    u in s.disk && u !in s.held
  }

  /** The end of a block changes volatile state only. */
  function Continue(s: Sys, u: Id, then_: Then): (r: Sys)
    ensures r == s.(queue := r.queue, running := r.running)
  {
    match then_
    case Nothing => s
    case Enqueue(headers) => s.(queue := s.queue + [Job(u, headers)])
    case Grant(f, m) =>
      if f in s.running then s.(running := s.running[f := s.running[f].(pc := Holding(m))]) else s
    case Retire(f) => s.(running := s.running - {f})
  }

  function Begin(s: Sys, u: Id, plan: Plan): (r: Sys)
    ensures r == s.(held := r.held, queue := r.queue, running := r.running)
  {
    if plan.ops == [] then Continue(s, u, plan.then_)
    else s.(held := s.held[u := Block(plan.ops, plan.then_)])
  }

  /** A rejected client call changes nothing. */
  function BeginChecked(s: Sys, u: Id, plan: Result<Plan, RelayError>): Sys {
    match plan
    case Ok(p) => Begin(s, u, p)
    case Err(_) => s
  }

  function Apply(d: Dir, op: DiskOp): Dir {
    match op
    case PutPart(k, data) => d.(parts := d.parts[k := data])
    case PutMeta(m, _) => d.(meta := Some(m))
    case Sweep => d.(parts := map[])
    case Remove => Dir(None, map[])
  }

  /** Record an explicit request when the write that makes it durable happens. */
  function Observe(log: seq<Observation>, u: Id, d: Dir, op: DiskOp): seq<Observation> {
    if op.PutMeta? && d.meta.Some? && op.meta.requests > d.meta.value.requests then
      log + [Requested(u, op.meta.requests, op.meta.config.fingerprint)]
    else log
  }

  function Perform(s: Sys, u: Id, op: DiskOp): Sys
    requires u in s.disk && u in s.accepted
  {
    s.(disk := s.disk[u := Apply(s.disk[u], op)],
       accepted := if op.PutMeta? then s.accepted[u := s.accepted[u] + op.accepts] else s.accepted,
       log := Observe(s.log, u, s.disk[u], op))
  }

  function WriteStep(s: Sys, u: Id): Sys {
    if u in s.held && u in s.disk && u in s.accepted && s.held[u].ops != [] then
      var block := s.held[u];
      var after := Perform(s, u, block.ops[0]);
      if |block.ops| == 1 then Continue(after.(held := after.held - {u}), u, block.then_)
      else after.(held := after.held[u := block.(ops := block.ops[1..])])
    else s
  }

  function Restrict(parts: map<nat, Bytes>, keep: set<nat>): map<nat, Bytes> {
    map k | k in parts && k in keep :: parts[k]
  }

  function PartialDeleteStep(s: Sys, u: Id, keepMeta: bool, keepParts: set<nat>): Sys {
    if u in s.held && u in s.disk && s.held[u].ops != [] && (s.held[u].ops[0].Sweep? || s.held[u].ops[0].Remove?) then
      var d := s.disk[u];
      var meta := if keepMeta || s.held[u].ops[0].Sweep? then d.meta else None;
      s.(disk := s.disk[u := Dir(meta, Restrict(d.parts, keepParts))])
    else s
  }

  /** The catch branch around removeChunks: keep the upload completed and note the pending cleanup. */
  function SweepFailsStep(s: Sys, u: Id): Sys {
    if u in s.held && u in s.disk && s.disk[u].meta.Some? && s.disk[u].meta.value.state.Completed? && s.held[u].ops != [] then
      match s.held[u].ops[0]
      case Sweep =>
        s.(held := s.held[u := s.held[u].(ops := [PutMeta(s.disk[u].meta.value.(failure := ChunkCleanupPending), [])])])
      case PutMeta(m, _) =>
        if |s.held[u].ops| == 1 && m.state.Completed? then
          s.(held := s.held[u := s.held[u].(ops := [PutMeta(m.(failure := ChunkCleanupPending), [])])])
        else s
      case _ => s
    else s
  }

  /** An exception releases the lock; a finalizer that fails inside its block ends. */
  function Abandon(s: Sys, u: Id): Sys
    requires u in s.held
  {
    var released := s.(held := s.held - {u});
    match s.held[u].then_
    case Grant(f, _) => released.(running := released.running - {f})
    case Retire(f) => released.(running := released.running - {f})
    case _ => released
  }

  function IoErrorStep(s: Sys, u: Id): Sys {
    if u in s.held then Abandon(s, u) else s
  }

  /** The renamed file is visible, then the call fails: nothing of what the block would do next happens. */
  function SyncFailsStep(s: Sys, u: Id): Sys {
    if u in s.held && u in s.disk && u in s.accepted && s.held[u].ops != [] then
      Abandon(Perform(s, u, s.held[u].ops[0]), u)
    else s
  }

  /** Any failure but a missing file: the finalizer's promise rejects, which the scheduler swallows. */
  function ReadFailsStep(s: Sys, f: nat): Sys {
    if f in s.running && Free(s, s.running[f].upload) then s.(running := s.running - {f}) else s
  }

  function CrashStep(s: Sys): Sys {
    s.(held := map[], queue := [], running := map[], creating := None)
  }

  function CreateBeginStep(s: Sys, length: int, config: Config): Sys {
    if s.creating.None? && 1 <= length <= MAX_SAFE_INTEGER && length <= config.maxFileSize then
      s.(creating := Some(Creating(length, config, s.disk.Keys, map[], 0, 0)))
    else s
  }

  /** One iteration of the loop in pendingUploadStats; it takes no upload lock. */
  function CreateScanStep(s: Sys, u: Id): Sys {
    if s.creating.Some? && u in s.creating.value.remaining && u in s.disk then
      var c := s.creating.value;
      var rest := c.(remaining := c.remaining - {u});
      if Pending(s.disk[u]) then
        var length := s.disk[u].meta.value.length;
        s.(creating := Some(rest.(counted := rest.counted[u := length],
                                  count := rest.count + 1,
                                  reservedBytes := rest.reservedBytes + length)))
      else s.(creating := Some(rest))
    else s
  }

  function NewMetadata(length: nat, config: Config, now: int): Metadata {
    Metadata(length, 0, [], Uploading, config, now, 0, false, NoFailure, 0)
  }

  function CreateEndStep(s: Sys, now: int): Sys {
    if s.creating.Some? && s.creating.value.remaining == {} then
      var c := s.creating.value;
      var released := s.(creating := None);
      if c.count >= MAX_PENDING_UPLOADS || c.reservedBytes + c.length > s.maxPendingBytes then released
      else
        released.(disk := s.disk[s.nextUpload := Dir(Some(NewMetadata(c.length, c.config, now)), map[])],
                  accepted := s.accepted[s.nextUpload := []],
                  nextUpload := s.nextUpload + 1)
    else s
  }

  function StartStep(s: Sys): Sys {
    StartUpTo(s, MAX_CONCURRENT_FINALIZERS)
  }

  function StartUpTo(s: Sys, max: nat): Sys {
    if |s.queue| > 0 && |s.running| < max && s.queue[0].upload in s.disk then
      s.(queue := s.queue[1..],
         running := s.running[s.nextFinalizer := Finalizer(s.queue[0].upload, s.queue[0].headers, Starting)],
         nextFinalizer := s.nextFinalizer + 1)
    else s
  }

  function Lock(s: Sys, f: nat): Sys
    requires f in s.running
  {
    s.(running := s.running[f := s.running[f].(pc := Locked)])
  }

  function PrepareStep(s: Sys, f: nat, config: Option<Config>): Sys {
    if f in s.running && s.running[f].pc.Starting? && Free(s, s.running[f].upload) then
      var u := s.running[f].upload;
      Begin(Lock(s, f).(nextLease := s.nextLease + 1), u, PreparePlan(s.disk[u], config, f, s.nextLease))
    else s
  }

  /** finish() stats every chunk file before it calls the origin. */
  predicate AllChunksPresent(d: Dir, chunks: seq<Chunk>) {
    forall c | c in chunks :: c.offset in d.parts && |d.parts[c.offset]| == c.size
  }

  function RecheckStep(s: Sys, f: nat, config: Option<Config>): Sys {
    if f in s.running && s.running[f].pc.Holding? && s.running[f].upload in s.disk then
      var u := s.running[f].upload;
      var m := s.running[f].pc.meta;
      if config.Some? && config.value.fingerprint == m.config.fingerprint then
        if AllChunksPresent(s.disk[u], m.chunks) then
          s.(running := s.running[f := s.running[f].(pc := Sending(m, 0, []))],
             log := s.log + [Dispatched(u, m.requests, config.value.fingerprint)])
        else s
      else if Free(s, u) then
        var code := if config.None? then RelayDisabled else ConfigurationChanged;
        Begin(Lock(s, f), u, SettlePlan(s.disk[u], f, m.lease, Some(code)))
      else s
    else s
  }

  /** The request body is streamed lazily, chunk file by chunk file, without the upload lock. */
  function ReadChunkStep(s: Sys, f: nat): Sys {
    if f in s.running && s.running[f].pc.Sending? && s.running[f].upload in s.disk then
      var pc := s.running[f].pc;
      var parts := s.disk[s.running[f].upload].parts;
      if pc.sent < |pc.meta.chunks| && pc.meta.chunks[pc.sent].offset in parts
         && |parts[pc.meta.chunks[pc.sent].offset]| == pc.meta.chunks[pc.sent].size then
        var next := Sending(pc.meta, pc.sent + 1, pc.body + parts[pc.meta.chunks[pc.sent].offset]);
        s.(running := s.running[f := s.running[f].(pc := next)])
      else s
    else s
  }

  function SettleStep(s: Sys, f: nat, ok: bool): Sys {
    if && f in s.running && Free(s, s.running[f].upload)
       && (s.running[f].pc.Sending? || (s.running[f].pc.Holding? && !ok)) then
      var u := s.running[f].upload;
      var m := s.running[f].pc.meta;
      var observed := if ok then s.(log := s.log + [Accepted(u, m.requests, m.config.fingerprint)]) else s;
      Begin(Lock(observed, f), u, SettlePlan(s.disk[u], f, m.lease, if ok then None else Some(OriginRejected)))
    else s
  }

  function ClientStep(s: Sys, u: Id, plan: Metadata -> Result<Plan, RelayError>): Sys {
    if Free(s, u) && LoadMetadata(s.disk[u]).Some? then BeginChecked(s, u, plan(s.disk[u].meta.value)) else s
  }

  function Next(s: Sys, e: Event): Sys {
    match e
    case CreateBegin(length, config) => CreateBeginStep(s, length, config)
    case CreateScan(u) => CreateScanStep(s, u)
    case CreateEnd(now) => CreateEndStep(s, now)
    case CreateFail => s.(creating := None)
    case Append(u, config, offset, length, data, headers) =>
      ClientStep(s, u, m => AppendPlan(m, config, offset, length, data, headers))
    case Finalize(u, config, headers) => ClientStep(s, u, m => FinalizePlan(m, config, headers))
    case Delete(u) => ClientStep(s, u, m => Ok(RemovePlan(m)))
    case Expire(u, now) => if Free(s, u) then Begin(s, u, ExpirePlan(s.disk[u], now)) else s
    case Recover(u) => if Free(s, u) then Begin(s, u, RecoverPlan(s.disk[u])) else s
    case StartFinalizer => StartStep(s)
    case Prepare(f, config) => PrepareStep(s, f, config)
    case Recheck(f, config) => RecheckStep(s, f, config)
    case ReadChunk(f) => ReadChunkStep(s, f)
    case Settle(f, ok) => SettleStep(s, f, ok)
    case Write(u) => WriteStep(s, u)
    case PartialDelete(u, keepMeta, keepParts) => PartialDeleteStep(s, u, keepMeta, keepParts)
    case SyncFails(u) => SyncFailsStep(s, u)
    case SweepFails(u) => SweepFailsStep(s, u)
    case IoError(u) => IoErrorStep(s, u)
    case ReadFails(f) => ReadFailsStep(s, f)
    case Crash => CrashStep(s)
  }

  function Run(s: Sys, events: seq<Event>): Sys
    decreases |events|
  {
    if |events| == 0 then s else Next(Run(s, events[..|events| - 1]), events[|events| - 1])
  }
}
