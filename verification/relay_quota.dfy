/**
 * The pending-upload quota of a host. create() scans the directories without taking upload locks,
 * so uploads change while they are counted; the limits hold in every reachable state nevertheless.
 */
module RelayQuota {
  import opened Wrappers
  import opened RelayTypes
  import opened RelayProtocol
  import opened RelaySafety
  import opened RelaySteps
  import opened RelayRuns

  predicate PendingAt(disk: map<Id, Dir>, u: Id) {
    u in disk && Pending(disk[u])
  }

  function LengthAt(disk: map<Id, Dir>, u: Id): nat {
    if PendingAt(disk, u) then disk[u].meta.value.length else 0
  }

  /** Declared bytes of the non-completed uploads with an id below n. */
  function PendingBytes(disk: map<Id, Dir>, n: nat): nat {
    if n == 0 then 0 else PendingBytes(disk, n - 1) + LengthAt(disk, n - 1)
  }

  function PendingCount(disk: map<Id, Dir>, n: nat): nat {
    if n == 0 then 0 else PendingCount(disk, n - 1) + if PendingAt(disk, n - 1) then 1 else 0
  }

  function SumOf(counted: map<Id, nat>, n: nat): nat {
    if n == 0 then 0 else SumOf(counted, n - 1) + if n - 1 in counted then counted[n - 1] else 0
  }

  function SizeOf(counted: map<Id, nat>, n: nat): nat {
    if n == 0 then 0 else SizeOf(counted, n - 1) + if n - 1 in counted then 1 else 0
  }

  // ---------- Sums ----------

  lemma {:induction false} PendingWithin(disk: map<Id, Dir>, counted: map<Id, nat>, n: nat)
    requires forall u: Id | u < n && PendingAt(disk, u) :: u in counted && counted[u] == LengthAt(disk, u)
    ensures PendingBytes(disk, n) <= SumOf(counted, n) && PendingCount(disk, n) <= SizeOf(counted, n)
  {
    if n > 0 { PendingWithin(disk, counted, n - 1); }
  }

  ghost predicate Shrinks(disk: map<Id, Dir>, disk': map<Id, Dir>) {
    forall u | PendingAt(disk', u) :: PendingAt(disk, u) && LengthAt(disk', u) == LengthAt(disk, u)
  }

  lemma {:induction false} PendingShrinks(disk: map<Id, Dir>, disk': map<Id, Dir>, n: nat)
    requires Shrinks(disk, disk')
    ensures PendingBytes(disk', n) <= PendingBytes(disk, n) && PendingCount(disk', n) <= PendingCount(disk, n)
  {
    if n > 0 { PendingShrinks(disk, disk', n - 1); }
  }

  lemma {:induction false} SumAdd(counted: map<Id, nat>, u: Id, length: nat, n: nat)
    requires u !in counted
    ensures SumOf(counted[u := length], n) == SumOf(counted, n) + if u < n then length else 0
    ensures SizeOf(counted[u := length], n) == SizeOf(counted, n) + if u < n then 1 else 0
  {
    if n > 0 { SumAdd(counted, u, length, n - 1); }
  }

  lemma {:induction false} SumEmpty(n: nat)
    ensures SumOf(map[], n) == 0 && SizeOf(map[], n) == 0
  {
    if n > 0 { SumEmpty(n - 1); }
  }

  lemma {:induction false} PendingSame(disk: map<Id, Dir>, disk': map<Id, Dir>, n: nat)
    requires forall u: Id | u < n :: PendingAt(disk, u) == PendingAt(disk', u) && LengthAt(disk, u) == LengthAt(disk', u)
    ensures PendingBytes(disk', n) == PendingBytes(disk, n) && PendingCount(disk', n) == PendingCount(disk, n)
  {
    if n > 0 { PendingSame(disk, disk', n - 1); }
  }

  // ---------- The quota invariant ----------

  /** Whatever is still pending is either not scanned yet or counted with its declared length. */
  ghost predicate ScanOk(s: Sys, c: Creating) {
    && c.remaining <= s.disk.Keys
    && (forall u | u in c.counted :: u < s.nextUpload && u !in c.remaining)
    && (forall u | PendingAt(s.disk, u) && u !in c.remaining :: u in c.counted && c.counted[u] == LengthAt(s.disk, u))
    && c.reservedBytes == SumOf(c.counted, s.nextUpload)
    && c.count == SizeOf(c.counted, s.nextUpload)
  }

  ghost predicate WithinLimits(s: Sys) {
    PendingBytes(s.disk, s.nextUpload) <= s.maxPendingBytes && PendingCount(s.disk, s.nextUpload) <= MAX_PENDING_UPLOADS
  }

  ghost predicate QuotaInv(s: Sys) {
    WithinLimits(s) && (s.creating.Some? ==> ScanOk(s, s.creating.value))
  }

  lemma QuotaFrame(s: Sys, s': Sys)
    requires QuotaInv(s) && Shrinks(s.disk, s'.disk) && s.disk.Keys <= s'.disk.Keys
    requires s'.nextUpload == s.nextUpload && s'.maxPendingBytes == s.maxPendingBytes
    requires s'.creating == s.creating || s'.creating.None?
    ensures QuotaInv(s')
  {
    PendingShrinks(s.disk, s'.disk, s.nextUpload);
  }

  lemma OpShrinks(d: Dir, op: DiskOp)
    requires op.PutMeta? ==> d.meta.Some? && MetaStep(d.meta.value, op.meta) && Loadable(d.meta.value)
    ensures Pending(Apply(d, op)) ==> Pending(d) && Apply(d, op).meta.value.length == d.meta.value.length
  {
  }

  /** No write makes an upload pending again or changes its declared length. */
  lemma WriteShrinks(s: Sys, u: Id)
    requires DiskInv(s) && HeldInv(s)
    ensures Shrinks(s.disk, WriteStep(s, u).disk) && s.disk.Keys <= WriteStep(s, u).disk.Keys
    ensures SyncFailsStep(s, u).disk == WriteStep(s, u).disk
    ensures WriteStep(s, u).creating == s.creating && WriteStep(s, u).nextUpload == s.nextUpload
    ensures WriteStep(s, u).maxPendingBytes == s.maxPendingBytes
  {
    if u in s.held && u in s.disk && u in s.accepted && s.held[u].ops != [] {
      if s.held[u].ops[0].PutMeta? {
        HeldWrite(s, u);
      }
      hide DiskInv, HeldInv, Pending, Continue;
      OpShrinks(s.disk[u], s.held[u].ops[0]);
      assert WriteStep(s, u).disk == s.disk[u := Apply(s.disk[u], s.held[u].ops[0])];
    }
  }

  lemma PartialDeleteShrinks(s: Sys, u: Id, keepMeta: bool, keepParts: set<nat>)
    ensures Shrinks(s.disk, PartialDeleteStep(s, u, keepMeta, keepParts).disk)
    ensures s.disk.Keys <= PartialDeleteStep(s, u, keepMeta, keepParts).disk.Keys
  {
  }

  lemma ScanKeepsQuota(s: Sys, u: Id)
    requires DiskInv(s) && QuotaInv(s)
    ensures QuotaInv(CreateScanStep(s, u))
  {
    if s.creating.Some? && u in s.creating.value.remaining && u in s.disk {
      assert u < s.nextUpload;
      hide DiskInv, Loadable;
      if Pending(s.disk[u]) {
        SumAdd(s.creating.value.counted, u, s.disk[u].meta.value.length, s.nextUpload);
      }
    }
  }

  /** An admitted upload fits into what the scan has left. */
  lemma CreatedWithin(s: Sys, s': Sys, c: Creating, now: int)
    requires QuotaInv(s) && s.nextUpload !in s.disk && s.creating == Some(c) && c.remaining == {}
    requires c.count < MAX_PENDING_UPLOADS && c.reservedBytes + c.length <= s.maxPendingBytes
    requires s' == s.(creating := None, disk := s.disk[s.nextUpload := Dir(Some(NewMetadata(c.length, c.config, now)), map[])],
                      accepted := s.accepted[s.nextUpload := []], nextUpload := s.nextUpload + 1)
    ensures QuotaInv(s')
  {
    hide Loadable;
    PendingWithin(s.disk, c.counted, s.nextUpload);
    PendingSame(s.disk, s'.disk, s.nextUpload);
    assert LengthAt(s'.disk, s.nextUpload) <= c.length;
  }

  lemma CreateKeepsQuota(s: Sys, now: int)
    requires DiskInv(s) && QuotaInv(s)
    ensures QuotaInv(CreateEndStep(s, now))
  {
    var s' := CreateEndStep(s, now);
    assert s.nextUpload !in s.disk;
    hide DiskInv;
    if s'.nextUpload == s.nextUpload {
      assert s'.disk == s.disk && s'.maxPendingBytes == s.maxPendingBytes && (s'.creating == s.creating || s'.creating.None?);
      hide CreateEndStep;
      QuotaFrame(s, s');
    } else {
      CreatedWithin(s, s', s.creating.value, now);
    }
  }

  lemma NextKeepsQuota(s: Sys, e: Event)
    requires Inv(s) && QuotaInv(s)
    ensures QuotaInv(Next(s, e))
  {
    hide DiskInv, HeldInv, RunInv, TicketInv, QuotaInv, WriteStep, PartialDeleteStep, CreateBeginStep, CreateScanStep,
         CreateEndStep;
    QuietSteps(s, e);
    match e
    case Write(u) => WriteShrinks(s, u); QuotaFrame(s, Next(s, e));
    case SyncFails(u) => WriteShrinks(s, u); QuotaFrame(s, Next(s, e));
    case PartialDelete(u, keepMeta, keepParts) =>
      PartialDeleteShrinks(s, u, keepMeta, keepParts);
      QuotaFrame(s, Next(s, e));
    case CreateBegin(length, config) => BeginKeepsQuota(s, length, config);
    case CreateScan(u) => ScanKeepsQuota(s, u);
    case CreateEnd(now) => CreateKeepsQuota(s, now);
    case _ => QuotaFrame(s, Next(s, e));
  }

  /** Only four steps touch directories or the scan; a failed create and a crash abandon the scan. */
  ghost predicate Quiet(s: Sys, s': Sys) {
    && s'.disk == s.disk && s'.nextUpload == s.nextUpload && s'.maxPendingBytes == s.maxPendingBytes
    && (s'.creating == s.creating || s'.creating.None?)
  }

  lemma QuietPrepare(s: Sys, f: nat, config: Option<Config>)
    ensures Quiet(s, PrepareStep(s, f, config))
  {
    hide Begin, PreparePlan;
  }

  lemma QuietRecheck(s: Sys, f: nat, config: Option<Config>)
    ensures Quiet(s, RecheckStep(s, f, config)) && Quiet(s, ReadChunkStep(s, f))
  {
    hide Begin, SettlePlan, AllChunksPresent;
  }

  lemma QuietSettle(s: Sys, f: nat, ok: bool)
    ensures Quiet(s, SettleStep(s, f, ok))
  {
    hide Begin, SettlePlan;
  }

  lemma QuietFaults(s: Sys, u: Id)
    ensures Quiet(s, ReadFailsStep(s, u))
    ensures Quiet(s, SweepFailsStep(s, u)) && Quiet(s, IoErrorStep(s, u)) && Quiet(s, CrashStep(s)) && Quiet(s, StartStep(s))
  {
  }

  lemma QuietSteps(s: Sys, e: Event)
    ensures !e.Write? && !e.SyncFails? && !e.PartialDelete? && !e.CreateBegin? && !e.CreateScan? && !e.CreateEnd? ==>
              var s' := Next(s, e);
              && s'.disk == s.disk && s'.nextUpload == s.nextUpload && s'.maxPendingBytes == s.maxPendingBytes
              && (s'.creating == s.creating || s'.creating.None?)
    ensures e.PartialDelete? || e.SyncFails? ==>
              var s' := Next(s, e);
              s'.nextUpload == s.nextUpload && s'.maxPendingBytes == s.maxPendingBytes && s'.creating == s.creating
  {
    hide LoadMetadata, Begin, ExpirePlan, RecoverPlan, AppendPlan, FinalizePlan, RemovePlan, PrepareStep, RecheckStep, ReadChunkStep, SettleStep, StartStep,
         SweepFailsStep, IoErrorStep, ReadFailsStep, CrashStep;
    match e
    case Prepare(f, config) => QuietPrepare(s, f, config);
    case Recheck(f, config) => QuietRecheck(s, f, config);
    case ReadChunk(f) => QuietRecheck(s, f, None);
    case Settle(f, ok) => QuietSettle(s, f, ok);
    case SweepFails(u) => QuietFaults(s, u);
    case IoError(u) => QuietFaults(s, u);
    case ReadFails(f) => QuietFaults(s, f);
    case StartFinalizer => QuietFaults(s, 0);
    case Crash => QuietFaults(s, 0);
    case _ =>
  }

  lemma BeginKeepsQuota(s: Sys, length: int, config: Config)
    requires QuotaInv(s)
    ensures QuotaInv(CreateBeginStep(s, length, config))
  {
    SumEmpty(s.nextUpload);
  }

  /** Uploads with an id below n whose stored metadata is not completed. */
  function Unfinished(disk: map<Id, Dir>, n: nat): nat {
    if n == 0 then 0
    else Unfinished(disk, n - 1)
         + if n - 1 in disk && disk[n - 1].meta.Some? && disk[n - 1].meta.value.state != Completed then 1 else 0
  }

  /** Their declared lengths. */
  function UnfinishedBytes(disk: map<Id, Dir>, n: nat): nat {
    if n == 0 then 0
    else UnfinishedBytes(disk, n - 1)
         + if n - 1 in disk && disk[n - 1].meta.Some? && disk[n - 1].meta.value.state != Completed
           then disk[n - 1].meta.value.length else 0
  }

  lemma {:induction false} PendingIsUnfinished(disk: map<Id, Dir>, n: nat)
    requires forall u: Id | u < n && u in disk :: LoadMetadata(disk[u]) == disk[u].meta
    ensures PendingCount(disk, n) == Unfinished(disk, n) && PendingBytes(disk, n) == UnfinishedBytes(disk, n)
  {
    hide Loadable;
    if n > 0 { PendingIsUnfinished(disk, n - 1); }
  }

  lemma AllLoadable(s: Sys)
    requires Inv(s)
    ensures forall u | u in s.disk :: LoadMetadata(s.disk[u]) == s.disk[u].meta && u < s.nextUpload
  {
    forall u | u in s.disk ensures LoadMetadata(s.disk[u]) == s.disk[u].meta && u < s.nextUpload {
      StoredOk(s, u);
    }
  }

  /** In every reachable state a host's unfinished uploads stay within both limits. */
  lemma {:induction false} UnfinishedUploadsStayWithinLimits(maxPendingBytes: nat, events: seq<Event>)
    ensures var s := Run(Init(maxPendingBytes), events);
            && Unfinished(s.disk, s.nextUpload) <= 32 && UnfinishedBytes(s.disk, s.nextUpload) <= maxPendingBytes
            && forall u | u in s.disk :: u < s.nextUpload
  {
    RunKeepsInv(maxPendingBytes, events);
    PendingUploadsStayWithinLimits(maxPendingBytes, events);
    var s := Run(Init(maxPendingBytes), events);
    hide Run;
    AllLoadable(s);
    PendingIsUnfinished(s.disk, s.nextUpload);
    hide Inv;
  }

  /** The invariant behind it, over what the scan counts. */
  lemma {:induction false} PendingUploadsStayWithinLimits(maxPendingBytes: nat, events: seq<Event>)
    ensures QuotaInv(Run(Init(maxPendingBytes), events))
    ensures var s := Run(Init(maxPendingBytes), events);
            && s.maxPendingBytes == maxPendingBytes
            && PendingBytes(s.disk, s.nextUpload) <= maxPendingBytes
            && PendingCount(s.disk, s.nextUpload) <= 32
            && forall u | u in s.disk :: u < s.nextUpload
    decreases |events|
  {
    RunKeepsInv(maxPendingBytes, events);
    if |events| > 0 {
      var before := Run(Init(maxPendingBytes), events[..|events| - 1]);
      PendingUploadsStayWithinLimits(maxPendingBytes, events[..|events| - 1]);
      RunKeepsInv(maxPendingBytes, events[..|events| - 1]);
      LimitIsFixed(before, events[|events| - 1]);
      hide HeldInv, RunInv, TicketInv;
      NextKeepsQuota(before, events[|events| - 1]);
    }
  }

  lemma LimitIsFixed(s: Sys, e: Event)
    ensures Next(s, e).maxPendingBytes == s.maxPendingBytes
  {
    hide Loadable, PreparePlan, SettlePlan, AppendPlan;
  }

  // ---------- Admission ----------

  function Scans(order: seq<Id>): seq<Event> {
    seq(|order|, i requires 0 <= i < |order| => CreateScan(order[i]))
  }

  /** The scan has visited these directories and nothing else has happened. */
  ghost predicate Scanned(s: Sys, t: Sys, order: seq<Id>, length: UploadLength, config: Config) {
    && t == s.(creating := t.creating) && t.creating.Some?
    && var c := t.creating.value;
       && c.length == length && c.config == config
       && (forall u | u in c.remaining :: u !in order)
       && (forall u | u in c.counted :: PendingAt(s.disk, u) && c.counted[u] == LengthAt(s.disk, u))
  }

  lemma ScanOne(s: Sys, t: Sys, order: seq<Id>, u: Id, length: UploadLength, config: Config)
    requires Scanned(s, t, order, length, config) && u in s.disk
    ensures Scanned(s, Next(t, CreateScan(u)), order + [u], length, config)
  {
    hide Loadable;
  }

  lemma {:induction false} ScanAll(s: Sys, t: Sys, order: seq<Id>, length: UploadLength, config: Config)
    requires Inv(t) && QuotaInv(t) && Scanned(s, t, [], length, config) && forall u | u in order :: u in s.disk
    ensures var r := Run(t, Scans(order)); Inv(r) && QuotaInv(r) && Scanned(s, r, order, length, config)
    decreases |order|
  {
    hide Inv, QuotaInv, Scanned, Next;
    if |order| == 0 { return; }
    var front, last := order[..|order| - 1], order[|order| - 1];
    assert order == front + [last] && Scans(order)[..|order| - 1] == Scans(front);
    ScanAll(s, t, front, length, config);
    var r := Run(t, Scans(front));
    NextInv(r, CreateScan(last));
    NextKeepsQuota(r, CreateScan(last));
    ScanOne(s, r, front, last, length, config);
  }

  /** Counted exactly: what the scan found is what is stored. */
  lemma {:induction false} CountedExactly(disk: map<Id, Dir>, counted: map<Id, nat>, n: nat)
    requires forall u: Id | u < n && u in disk :: LoadMetadata(disk[u]) == disk[u].meta
    requires forall u: Id | u < n :: (PendingAt(disk, u) <==> u in counted) && (u in counted ==> counted[u] == LengthAt(disk, u))
    ensures SizeOf(counted, n) == Unfinished(disk, n) && SumOf(counted, n) == UnfinishedBytes(disk, n)
  {
    hide Loadable;
    if n > 0 { CountedExactly(disk, counted, n - 1); }
  }

  lemma ScanBegins(s: Sys, length: UploadLength, config: Config)
    requires s.creating.None? && length <= config.maxFileSize
    ensures Scanned(s, Next(s, CreateBegin(length, config)), [], length, config)
  {
  }

  lemma AdmitAfterScan(s: Sys, r: Sys, order: seq<Id>, length: UploadLength, config: Config, now: int)
    requires QuotaInv(r) && Scanned(s, r, order, length, config) && forall u :: u in order <==> u in s.disk
    requires forall u | u in s.disk :: LoadMetadata(s.disk[u]) == s.disk[u].meta && u < s.nextUpload
    ensures Next(r, CreateEnd(now)).disk
         == if Unfinished(s.disk, s.nextUpload) < 32 && UnfinishedBytes(s.disk, s.nextUpload) + length <= s.maxPendingBytes
            then s.disk[s.nextUpload := Dir(Some(Metadata(length, 0, [], Uploading, config, now, 0, false, NoFailure, 0)), map[])]
            else s.disk
  {
    var c := r.creating.value;
    assert c.remaining == {};
    hide LoadMetadata;
    CountedExactly(s.disk, c.counted, s.nextUpload);
    hide Pending, WithinLimits;
  }

  lemma {:induction false} NoScan(s: Sys, order: seq<Id>)
    requires s.creating.None?
    ensures Run(s, Scans(order)) == s
    decreases |order|
  {
    if |order| > 0 {
      assert Scans(order)[..|order| - 1] == Scans(order[..|order| - 1]);
      NoScan(s, order[..|order| - 1]);
    }
  }

  lemma AdmittedHere(s: Sys, length: int, config: Config, order: seq<Id>, now: int)
    requires Inv(s) && QuotaInv(s) && s.creating.None? && forall u :: u in order <==> u in s.disk
    ensures var t := Next(Run(Next(s, CreateBegin(length, config)), Scans(order)), CreateEnd(now));
            var fits := && 1 <= length <= MAX_SAFE_INTEGER && length <= config.maxFileSize
                        && Unfinished(s.disk, s.nextUpload) < 32
                        && UnfinishedBytes(s.disk, s.nextUpload) + length <= s.maxPendingBytes;
            && s.nextUpload !in s.disk
            && t.disk == if fits then s.disk[s.nextUpload := Dir(Some(
                 Metadata(length, 0, [], Uploading, config, now, 0, false, NoFailure, 0)), map[])] else s.disk
  {
    AllLoadable(s);
    hide Inv, QuotaInv, Run, Scanned, Loadable, Unfinished, UnfinishedBytes, Scans;
    var begun := Next(s, CreateBegin(length, config));
    if 1 <= length <= MAX_SAFE_INTEGER && length <= config.maxFileSize {
      NextInv(s, CreateBegin(length, config));
      NextKeepsQuota(s, CreateBegin(length, config));
      ScanBegins(s, length, config);
      ScanAll(s, begun, order, length, config);
      AdmitAfterScan(s, Run(begun, Scans(order)), order, length, config, now);
    } else {
      NoScan(s, order);
    }
  }

  /**
   * From every reachable state a creation, if nothing comes in between, is admitted exactly if the declared length is
   * allowed, fewer than 32 uploads are unfinished and their declared bytes leave room for it.
   */
  lemma {:induction false} AdmittedIff(
      maxPendingBytes: nat, before: seq<Event>, length: int, config: Config, order: seq<Id>, now: int)
    requires var s := Run(Init(maxPendingBytes), before);
             s.creating.None? && (forall u :: u in order <==> u in s.disk)
    ensures var s := Run(Init(maxPendingBytes), before);
            var t := Next(Run(Next(s, CreateBegin(length, config)), Scans(order)), CreateEnd(now));
            var fits := && 1 <= length <= MAX_SAFE_INTEGER && length <= config.maxFileSize
                        && Unfinished(s.disk, s.nextUpload) < 32
                        && UnfinishedBytes(s.disk, s.nextUpload) + length <= maxPendingBytes;
            && s.nextUpload !in s.disk
            && t.disk == if fits then s.disk[s.nextUpload := Dir(Some(
                 Metadata(length, 0, [], Uploading, config, now, 0, false, NoFailure, 0)), map[])] else s.disk
  {
    RunKeepsInv(maxPendingBytes, before);
    PendingUploadsStayWithinLimits(maxPendingBytes, before);
    hide Run, Next, Inv, QuotaInv, Unfinished, UnfinishedBytes, Scans;
    AdmittedHere(Run(Init(maxPendingBytes), before), length, config, order, now);
  }
}
