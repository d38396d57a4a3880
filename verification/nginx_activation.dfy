/**
 * Staged Nginx activation: back up, render and validate a batch of host files, then commit them all
 * or roll them all back. The rollbacks of different hosts run concurrently.
 */
module NginxActivation {
  import opened Wrappers

  /** A host's active file, its backup, and the rejected file kept for debugging. */
  datatype Path = Conf(host: nat) | Bak(host: nat) | Rejected(host: nat)
  type Files = map<Path, string>

  datatype Status = Online(enabled: bool) | RolledBack

  datatype Sys = Sys(files: Files, status: map<nat, Status>)

  /** A failed copy may leave any backup behind. */
  datatype Backup = Saved | NotSaved(leftover: Option<string>)

  /** A failed write may leave a truncated file behind. */
  datatype Rendering = Written(text: string) | Broken(partial: Option<string>)

  /** A host to stage, with everything its environment decides. */
  datatype Stage = Stage(host: nat, enabled: bool, backup: Backup, rendering: Rendering,
                         statusOk: bool, cleanupOk: bool, rollbackStatusOk: bool)

  datatype Step = Rename | Restore | WriteStatus
  /** One step of the rollback of stages[stage]. */
  datatype Op = Op(stage: nat, step: Step)

  // ---------- File operations ----------

  function Read(f: Files, p: Path): Option<string> {
    if p in f then Some(f[p]) else None
  }

  function Put(f: Files, p: Path, c: Option<string>): Files {
    if c.Some? then f[p := c.value] else f
  }

  /** Rename; a missing source is ignored. */
  function Moved(f: Files, from: Path, to: Path): Files {
    if from in f then (f - {from})[to := f[from]] else f
  }

  /** Copy the active file, or drop an old backup when there is none. */
  function BackedUp(f: Files, h: nat, b: Backup): Files {
    if b.NotSaved? then Put(f, Bak(h), b.leftover)
    else if Conf(h) in f then f[Bak(h) := f[Conf(h)]]
    else f - {Bak(h)}
  }

  function Rendered(f: Files, h: nat, r: Rendering): Files {
    if r.Written? then f[Conf(h) := r.text] else Put(f, Conf(h), r.partial)
  }

  function RolledBackFiles(f: Files, h: nat): Files {
    Moved(Moved(f, Conf(h), Rejected(h)), Bak(h), Conf(h))
  }

  predicate Stages(p: Stage) {
    p.backup.Saved? && p.rendering.Written?
  }

  /** configureHost with deferred validation. */
  function Staged(f: Files, p: Stage): Files {
    var b := BackedUp(f, p.host, p.backup);
    if p.backup.NotSaved? then b
    else
      var g := Rendered(b, p.host, p.rendering);
      if p.rendering.Written? then g else RolledBackFiles(g, p.host)
  }

  // ---------- A batch ----------

  /** How many hosts are staged before the first failure. */
  function StagedCount(ps: seq<Stage>): (n: nat)
    ensures n <= |ps|
  {
    if |ps| == 0 || !Stages(ps[0]) then 0 else 1 + StagedCount(ps[1..])
  }

  function StageFirst(f: Files, ps: seq<Stage>, n: nat): Files
    requires n <= |ps|
  {
    if n == 0 then f else Staged(StageFirst(f, ps, n - 1), ps[n - 1])
  }

  /** All hosts up to and including the first that fails. */
  function AfterStaging(f: Files, ps: seq<Stage>): Files {
    var n := StagedCount(ps);
    StageFirst(f, ps, if n < |ps| then n + 1 else n)
  }

  function Statuses(status: map<nat, Status>, ps: seq<Stage>, n: nat): map<nat, Status>
    requires n <= |ps|
  {
    if n == 0 then status
    else
      var before := Statuses(status, ps, n - 1);
      var p := ps[n - 1];
      if p.statusOk then before[p.host := Online(p.enabled)] else before
  }

  function CleanedUp(f: Files, ps: seq<Stage>, n: nat): Files
    requires n <= |ps|
  {
    if n == 0 then f
    else
      var before := CleanedUp(f, ps, n - 1);
      if ps[n - 1].cleanupOk then before - {Bak(ps[n - 1].host)} else before
  }

  function RollbackStep(s: Sys, p: Stage, step: Step): Sys {
    match step
    case Rename => s.(files := Moved(s.files, Conf(p.host), Rejected(p.host)))
    case Restore => s.(files := Moved(s.files, Bak(p.host), Conf(p.host)))
    case WriteStatus => if p.rollbackStatusOk then s.(status := s.status[p.host := RolledBack]) else s
  }

  function Rollback(s: Sys, ps: seq<Stage>, ops: seq<Op>): Sys
    decreases |ops|
  {
    if |ops| == 0 then s
    else
      var before := Rollback(s, ps, ops[..|ops| - 1]);
      var op := ops[|ops| - 1];
      if op.stage < |ps| then RollbackStep(before, ps[op.stage], op.step) else before
  }

  /** The steps one stage takes in an interleaving. */
  function StepsOf(ops: seq<Op>, i: nat): seq<Step>
    decreases |ops|
  {
    if |ops| == 0 then []
    else
      var last := ops[|ops| - 1];
      StepsOf(ops[..|ops| - 1], i) + if last.stage == i then [last.step] else []
  }

  /** Any interleaving of the n rollbacks, each in its own order. */
  ghost predicate Interleaves(ops: seq<Op>, n: nat) {
    && (forall i: nat | i < n :: StepsOf(ops, i) == [Rename, Restore, WriteStatus])
    && (forall op | op in ops :: op.stage < n)
  }

  predicate Succeeds(ps: seq<Stage>, valid: bool) {
    StagedCount(ps) == |ps| && valid && forall i | 0 <= i < |ps| :: ps[i].statusOk
  }

  function Batch(s: Sys, ps: seq<Stage>, valid: bool, ops: seq<Op>): Sys {
    var n := StagedCount(ps);
    var staged := s.(files := AfterStaging(s.files, ps));
    if n < |ps| || !valid then Rollback(staged, ps[..n], ops)
    else
      var committed := staged.(status := Statuses(s.status, ps, n));
      if Succeeds(ps, valid) then committed.(files := CleanedUp(committed.files, ps, n))
      else Rollback(committed, ps, ops)
  }

  ghost predicate DistinctHosts(ps: seq<Stage>) {
    forall i, j | 0 <= i < j < |ps| :: ps[i].host != ps[j].host
  }

  ghost predicate Hosts(ps: seq<Stage>, h: nat) {
    exists i :: 0 <= i < |ps| && ps[i].host == h
  }

  ghost predicate SameStatus(a: map<nat, Status>, b: map<nat, Status>, h: nat) {
    (h in a <==> h in b) && (h in a && h in b ==> a[h] == b[h])
  }

  // ---------- Staging ----------

  /** The active file and its backup, for one host. */
  ghost predicate SameHost(f: Files, g: Files, h: nat) {
    Read(f, Conf(h)) == Read(g, Conf(h)) && Read(f, Bak(h)) == Read(g, Bak(h))
  }

  lemma StagedHost(f: Files, p: Stage)
    ensures forall h | h != p.host :: SameHost(Staged(f, p), f, h)
    ensures Stages(p) ==> Read(Staged(f, p), Conf(p.host)) == Some(p.rendering.text)
                          && Read(Staged(f, p), Bak(p.host)) == Read(f, Conf(p.host))
    ensures !Stages(p) ==> Read(Staged(f, p), Conf(p.host)) == Read(f, Conf(p.host))
  {
  }

  lemma {:induction false} StageUntouched(f: Files, ps: seq<Stage>, n: nat, h: nat)
    requires n <= |ps| && forall i | 0 <= i < n :: ps[i].host != h
    ensures SameHost(StageFirst(f, ps, n), f, h)
  {
    if n > 0 {
      StageUntouched(f, ps, n - 1, h);
      StagedHost(StageFirst(f, ps, n - 1), ps[n - 1]);
      hide Staged;
    }
  }

  /** After n stages of distinct hosts, host i has its new file, and a backup of exactly what it had. */
  lemma {:induction false} StagedFiles(f: Files, ps: seq<Stage>, n: nat, i: nat)
    requires DistinctHosts(ps) && i < n <= |ps|
    ensures var g, h := StageFirst(f, ps, n), ps[i].host;
            if Stages(ps[i]) then Read(g, Conf(h)) == Some(ps[i].rendering.text) && Read(g, Bak(h)) == Read(f, Conf(h))
            else Read(g, Conf(h)) == Read(f, Conf(h))
  {
    StagedHost(StageFirst(f, ps, n - 1), ps[n - 1]);
    hide Staged;
    if i < n - 1 {
      StagedFiles(f, ps, n - 1, i);
    } else {
      StageUntouched(f, ps, n - 1, ps[i].host);
    }
  }

  lemma {:induction false} CountIsFirstFailure(ps: seq<Stage>)
    ensures forall i | 0 <= i < StagedCount(ps) :: Stages(ps[i])
    ensures StagedCount(ps) < |ps| ==> !Stages(ps[StagedCount(ps)])
  {
    if |ps| > 0 && Stages(ps[0]) {
      CountIsFirstFailure(ps[1..]);
      forall i | 0 <= i < StagedCount(ps) ensures Stages(ps[i]) {
        if i > 0 { assert ps[i] == ps[1..][i - 1]; }
      }
    }
  }

  // ---------- Rollback ----------

  /** What host h looks like once its rollback, begun in `from`, has taken k of its three steps. */
  ghost predicate RolledBackTo(from: Sys, s: Sys, p: Stage, k: nat) {
    var h := p.host;
    && Read(s.files, Conf(h)) == (if k == 0 then Read(from.files, Conf(h)) else if k == 1 then None else Read(from.files, Bak(h)))
    && Read(s.files, Bak(h)) == (if k <= 1 then Read(from.files, Bak(h)) else None)
    && Read(s.files, Rejected(h)) == Read(from.files, if k > 0 && Conf(h) in from.files then Conf(h) else Rejected(h))
    && (k == 3 && p.rollbackStatusOk ==> h in s.status && s.status[h] == RolledBack)
  }

  lemma RollbackStepHost(from: Sys, s: Sys, p: Stage, k: nat, step: Step)
    requires k < 3 && step == [Rename, Restore, WriteStatus][k] && RolledBackTo(from, s, p, k)
    ensures RolledBackTo(from, RollbackStep(s, p, step), p, k + 1)
  {
  }

  lemma RollbackStepOther(s: Sys, p: Stage, h: nat, step: Step)
    requires h != p.host
    ensures var t := RollbackStep(s, p, step);
            && SameHost(t.files, s.files, h) && Read(t.files, Rejected(h)) == Read(s.files, Rejected(h))
            && SameStatus(t.status, s.status, h)
  {
  }

  lemma {:induction false} RollbackHost(s: Sys, ps: seq<Stage>, ops: seq<Op>, i: nat)
    requires DistinctHosts(ps) && i < |ps|
    requires StepsOf(ops, i) <= [Rename, Restore, WriteStatus]
    ensures RolledBackTo(s, Rollback(s, ps, ops), ps[i], |StepsOf(ops, i)|)
    decreases |ops|
  {
    if |ops| > 0 {
      var front, op := ops[..|ops| - 1], ops[|ops| - 1];
      var before := Rollback(s, ps, front);
      assert StepsOf(front, i) <= StepsOf(ops, i);
      RollbackHost(s, ps, front, i);
      if op.stage == i {
        assert StepsOf(ops, i)[|StepsOf(front, i)|] == op.step;
        RollbackStepHost(s, before, ps[i], |StepsOf(front, i)|, op.step);
      } else if op.stage < |ps| {
        RollbackStepOther(before, ps[op.stage], ps[i].host, op.step);
      }
      hide RollbackStep;
    }
  }

  lemma {:induction false} RollbackUntouched(s: Sys, ps: seq<Stage>, ops: seq<Op>, h: nat)
    requires !Hosts(ps, h)
    ensures SameHost(Rollback(s, ps, ops).files, s.files, h)
    ensures SameStatus(Rollback(s, ps, ops).status, s.status, h)
    decreases |ops|
  {
    if |ops| > 0 {
      var front, op := ops[..|ops| - 1], ops[|ops| - 1];
      RollbackUntouched(s, ps, front, h);
      if op.stage < |ps| { RollbackStepOther(Rollback(s, ps, front), ps[op.stage], h, op.step); }
      hide RollbackStep;
    }
  }

  // ---------- All or nothing ----------

  ghost predicate AllRestored(before: Sys, after: Sys) {
    forall h: nat :: Read(after.files, Conf(h)) == Read(before.files, Conf(h))
  }

  /** The hosts whose rollbacks run. */
  function RollingBack(ps: seq<Stage>): seq<Stage> {
    ps[..StagedCount(ps)]
  }

  /** Rolling back any staged prefix restores every host, whatever statuses were written meanwhile. */
  lemma RollbackRestores(s: Sys, ps: seq<Stage>, status: map<nat, Status>, ops: seq<Op>, h: nat)
    requires DistinctHosts(ps) && Interleaves(ops, StagedCount(ps))
    ensures var staged := Sys(AfterStaging(s.files, ps), status);
            Read(Rollback(staged, RollingBack(ps), ops).files, Conf(h)) == Read(s.files, Conf(h))
  {
    var n := StagedCount(ps);
    var m := if n < |ps| then n + 1 else n;
    var staged := Sys(AfterStaging(s.files, ps), status);
    CountIsFirstFailure(ps);
    hide Stages, StagedCount;
    if Hosts(RollingBack(ps), h) {
      var i: nat :| i < n && ps[i].host == h;
      StagedFiles(s.files, ps, m, i);
      RollbackHost(staged, RollingBack(ps), ops, i);
    } else {
      RollbackUntouched(staged, RollingBack(ps), ops, h);
      assert forall i | 0 <= i < n :: RollingBack(ps)[i].host == ps[i].host;
      if n < |ps| && ps[n].host == h {
        StagedFiles(s.files, ps, m, n);
      } else {
        StageUntouched(s.files, ps, m, h);
      }
    }
  }

  /**
   * A batch of distinct hosts that fails anywhere (a backup, a rendering, the validation or any status
   * write) leaves every host's active file, in the batch or not, exactly as it was: same bytes or same
   * absence, whatever old backups were lying about and however the rollbacks interleave.
   */
  lemma FailedBatchRestores(s: Sys, ps: seq<Stage>, valid: bool, ops: seq<Op>)
    requires DistinctHosts(ps) && Interleaves(ops, StagedCount(ps))
    requires !Succeeds(ps, valid)
    ensures AllRestored(s, Batch(s, ps, valid, ops))
  {
    var n := StagedCount(ps);
    var status := if n < |ps| || !valid then s.status else Statuses(s.status, ps, n);
    assert n == |ps| ==> RollingBack(ps) == ps;
    assert Batch(s, ps, valid, ops) == Rollback(Sys(AfterStaging(s.files, ps), status), RollingBack(ps), ops);
    hide Batch;
    forall h: nat ensures Read(Batch(s, ps, valid, ops).files, Conf(h)) == Read(s.files, Conf(h)) {
      RollbackRestores(s, ps, status, ops, h);
    }
  }

  lemma {:induction false} StatusUntouched(status: map<nat, Status>, ps: seq<Stage>, n: nat, h: nat)
    requires n <= |ps| && !Hosts(ps, h)
    ensures SameStatus(Statuses(status, ps, n), status, h)
  {
    if n > 0 {
      StatusUntouched(status, ps, n - 1, h);
      assert ps[n - 1].host != h;
    }
  }

  /**
   * Of each host it had staged, a failed batch keeps the new text as the rejected file, drops the backup, and marks the
   * host rolled back if that can be written; the status of a host outside the batch stays.
   */
  lemma {:induction false} FailedBatchKeepsRejected(s: Sys, ps: seq<Stage>, valid: bool, ops: seq<Op>, i: nat)
    requires DistinctHosts(ps) && Interleaves(ops, StagedCount(ps)) && !Succeeds(ps, valid) && i < StagedCount(ps)
    ensures var t, h := Batch(s, ps, valid, ops), ps[i].host;
            && ps[i].rendering.Written? && Read(t.files, Rejected(h)) == Some(ps[i].rendering.text) && Bak(h) !in t.files
            && (ps[i].rollbackStatusOk ==> h in t.status && t.status[h] == RolledBack)
    ensures forall h: nat | !Hosts(ps, h) :: SameStatus(Batch(s, ps, valid, ops).status, s.status, h)
  {
    var n := StagedCount(ps);
    var m := if n < |ps| then n + 1 else n;
    var status := if n < |ps| || !valid then s.status else Statuses(s.status, ps, n);
    var staged := Sys(AfterStaging(s.files, ps), status);
    CountIsFirstFailure(ps);
    assert n == |ps| ==> RollingBack(ps) == ps;
    assert Batch(s, ps, valid, ops) == Rollback(staged, RollingBack(ps), ops);
    hide Batch;
    StagedFiles(s.files, ps, m, i);
    RollbackHost(staged, RollingBack(ps), ops, i);
    forall h: nat | !Hosts(ps, h) ensures SameStatus(Batch(s, ps, valid, ops).status, s.status, h) {
      assert !Hosts(RollingBack(ps), h);
      RollbackUntouched(staged, RollingBack(ps), ops, h);
      StatusUntouched(s.status, ps, n, h);
    }
  }

  lemma {:induction false} CleanupKeepsFiles(f: Files, ps: seq<Stage>, n: nat, h: nat)
    requires n <= |ps|
    ensures Read(CleanedUp(f, ps, n), Conf(h)) == Read(f, Conf(h))
    ensures (exists i :: 0 <= i < n && ps[i].host == h && ps[i].cleanupOk) ==> Bak(h) !in CleanedUp(f, ps, n)
  {
    if n > 0 { CleanupKeepsFiles(f, ps, n - 1, h); }
  }

  lemma {:induction false} StatusOf(status: map<nat, Status>, ps: seq<Stage>, n: nat, i: nat)
    requires DistinctHosts(ps) && i < n <= |ps| && ps[i].statusOk
    ensures ps[i].host in Statuses(status, ps, n) && Statuses(status, ps, n)[ps[i].host] == Online(ps[i].enabled)
  {
    if i < n - 1 { StatusOf(status, ps, n - 1, i); }
  }

  /** A successful batch installs every new file, and no other host's file changes. */
  lemma SuccessfulBatchInstalls(s: Sys, ps: seq<Stage>, valid: bool, ops: seq<Op>, h: nat)
    requires DistinctHosts(ps) && Succeeds(ps, valid)
    ensures var t := Batch(s, ps, valid, ops);
            if Hosts(ps, h) then
              exists i :: 0 <= i < |ps| && ps[i].host == h && ps[i].rendering.Written?
                && Read(t.files, Conf(h)) == Some(ps[i].rendering.text)
                && h in t.status && t.status[h] == Online(ps[i].enabled)
                && (ps[i].cleanupOk ==> Bak(h) !in t.files)
            else Read(t.files, Conf(h)) == Read(s.files, Conf(h)) && SameStatus(t.status, s.status, h)
  {
    var n := |ps|;
    CountIsFirstFailure(ps);
    CleanupKeepsFiles(AfterStaging(s.files, ps), ps, n, h);
    if Hosts(ps, h) {
      var i: nat :| i < n && ps[i].host == h;
      StagedFiles(s.files, ps, n, i);
      StatusOf(s.status, ps, n, i);
    } else {
      StageUntouched(s.files, ps, n, h);
      StatusUntouched(s.status, ps, n, h);
    }
  }

  // ---------- One host alone ----------

  function Undone(s: Sys, p: Stage): Sys {
    s.(files := RolledBackFiles(s.files, p.host), status := if p.rollbackStatusOk then s.status[p.host := RolledBack] else s.status)
  }

  /** configureHost without deferred validation. */
  function Configured(s: Sys, p: Stage, valid: bool): Sys {
    var staged := s.(files := Staged(s.files, p));
    if !Stages(p) then staged
    else if !valid || !p.statusOk then Undone(staged, p)
    else
      var committed := staged.(status := staged.status[p.host := Online(p.enabled)]);
      if p.cleanupOk then committed.(files := committed.files - {Bak(p.host)}) else Undone(committed, p)
  }

  predicate Installs(p: Stage, valid: bool) {
    Stages(p) && valid && p.statusOk && p.cleanupOk
  }

  /** It keeps the new file exactly when everything up to deleting the backup worked, and otherwise the old one. */
  lemma ConfiguredHost(s: Sys, p: Stage, valid: bool)
    ensures var t := Configured(s, p, valid);
            && (forall h | h != p.host :: SameHost(t.files, s.files, h))
            && (if Installs(p, valid) then
                  Read(t.files, Conf(p.host)) == Some(p.rendering.text) && Bak(p.host) !in t.files
                  && p.host in t.status && t.status[p.host] == Online(p.enabled)
                else
                  Read(t.files, Conf(p.host)) == Read(s.files, Conf(p.host))
                  && (Stages(p) && p.rollbackStatusOk ==> p.host in t.status && t.status[p.host] == RolledBack))
  {
    StagedHost(s.files, p);
    hide Staged;
    var t := Configured(s, p, valid);
    forall h | h != p.host ensures SameHost(t.files, s.files, h) {
      assert SameHost(Staged(s.files, p), s.files, h);
    }
  }

  // ---------- Runs of operations ----------

  /** A batch, one host alone, or the removal of a host's files. */
  datatype Operation =
    | Group(stages: seq<Stage>, valid: bool, ops: seq<Op>)
    | Single(stage: Stage, valid: bool)
    | RemoveHost(host: nat)

  function Performed(s: Sys, o: Operation): Sys {
    match o
    case Group(stages, valid, ops) => Batch(s, stages, valid, ops)
    case Single(stage, valid) => Configured(s, stage, valid)
    case RemoveHost(h) => s.(files := s.files - {Conf(h), Rejected(h)})
  }

  function RunAll(s: Sys, operations: seq<Operation>): Sys
    decreases |operations|
  {
    if |operations| == 0 then s else Performed(RunAll(s, operations[..|operations| - 1]), operations[|operations| - 1])
  }

  function TextFor(ps: seq<Stage>, h: nat): Option<string> {
    if |ps| == 0 then None
    else if ps[0].host == h && ps[0].rendering.Written? then Some(ps[0].rendering.text)
    else TextFor(ps[1..], h)
  }

  /** What the last successful operation on the host left, or what was there at first. */
  function Installed(s: Sys, operations: seq<Operation>, h: nat): Option<string>
    decreases |operations|
  {
    if |operations| == 0 then Read(s.files, Conf(h))
    else
      LeftBy(operations[|operations| - 1], Installed(s, operations[..|operations| - 1], h), h)
  }

  /** What an operation makes of a host's active file. */
  function LeftBy(o: Operation, earlier: Option<string>, h: nat): Option<string> {
    match o
    case Group(stages, valid, _) => if Succeeds(stages, valid) && TextFor(stages, h).Some? then TextFor(stages, h) else earlier
    case Single(stage, valid) => if Installs(stage, valid) && stage.host == h then Some(stage.rendering.text) else earlier
    case RemoveHost(host) => if host == h then None else earlier
  }

  ghost predicate WellFormed(o: Operation) {
    o.Group? ==> DistinctHosts(o.stages) && Interleaves(o.ops, StagedCount(o.stages))
  }

  lemma {:induction false} TextForStage(ps: seq<Stage>, h: nat)
    requires DistinctHosts(ps)
    ensures forall i | 0 <= i < |ps| && ps[i].host == h && ps[i].rendering.Written? :: TextFor(ps, h) == Some(ps[i].rendering.text)
    ensures TextFor(ps, h).Some? ==> Hosts(ps, h)
  {
    if |ps| > 0 {
      TextForStage(ps[1..], h);
      assert forall i | 0 < i < |ps| :: ps[i] == ps[1..][i - 1];
    }
  }

  /** Over every run each active file is the one last installed, or its absence after a removal. */
  lemma {:induction false} ActiveIsLastInstalled(s: Sys, operations: seq<Operation>, h: nat)
    requires forall o | o in operations :: WellFormed(o)
    ensures Read(RunAll(s, operations).files, Conf(h)) == Installed(s, operations, h)
    decreases |operations|
  {
    if |operations| > 0 {
      var front, last := operations[..|operations| - 1], operations[|operations| - 1];
      var before := RunAll(s, front);
      ActiveIsLastInstalled(s, front, h);
      assert last in operations;
      OperationInstalls(before, last, h);
      hide Performed, LeftBy, WellFormed;
    }
  }

  /** What one operation leaves for a host. */
  lemma OperationInstalls(s: Sys, o: Operation, h: nat)
    requires WellFormed(o)
    ensures Read(Performed(s, o).files, Conf(h)) == LeftBy(o, Read(s.files, Conf(h)), h)
  {
    hide Batch, Configured;
    match o
    case Group(stages, valid, ops) =>
      if Succeeds(stages, valid) {
        SuccessfulBatchInstalls(s, stages, valid, ops, h);
        TextForStage(stages, h);
      } else {
        FailedBatchRestores(s, stages, valid, ops);
      }
    case Single(stage, valid) =>
      ConfiguredHost(s, stage, valid);
      assert h != stage.host ==> SameHost(Configured(s, stage, valid).files, s.files, h);
    case RemoveHost(_) =>
  }

  // ---------- Why the hosts must be distinct ----------

  function Sequential(n: nat): (ops: seq<Op>)
  {
    if n == 0 then [] else Sequential(n - 1) + [Op(n - 1, Rename), Op(n - 1, Restore), Op(n - 1, WriteStatus)]
  }

  lemma StepsAppend(a: seq<Op>, op: Op, i: nat)
    ensures StepsOf(a + [op], i) == StepsOf(a, i) + if op.stage == i then [op.step] else []
  {
    assert (a + [op])[..|a|] == a;
  }

  /** The three steps of stage n, appended. */
  lemma StepsAppendThree(a: seq<Op>, n: nat, i: nat)
    ensures StepsOf(a + [Op(n, Rename), Op(n, Restore), Op(n, WriteStatus)], i)
         == StepsOf(a, i) + if i == n then [Rename, Restore, WriteStatus] else []
  {
    hide StepsOf;
    var b := a + [Op(n, Rename)];
    var c := b + [Op(n, Restore)];
    assert a + [Op(n, Rename), Op(n, Restore), Op(n, WriteStatus)] == c + [Op(n, WriteStatus)];
    StepsAppend(a, Op(n, Rename), i);
    StepsAppend(b, Op(n, Restore), i);
    StepsAppend(c, Op(n, WriteStatus), i);
  }

  lemma {:induction false} SequentialInterleaves(n: nat)
    ensures Interleaves(Sequential(n), n)
    ensures forall i: nat | i >= n :: StepsOf(Sequential(n), i) == []
  {
    if n > 0 {
      SequentialInterleaves(n - 1);
      forall i: nat
        ensures StepsOf(Sequential(n), i) == StepsOf(Sequential(n - 1), i) + if i == n - 1 then [Rename, Restore, WriteStatus] else []
      {
        StepsAppendThree(Sequential(n - 1), n - 1, i);
      }
      hide StepsOf;
    }
  }

  const OLD := "old"
  const NEW := "new"

  function AllWritten(hosts: seq<nat>): (ps: seq<Stage>)
    ensures |ps| == |hosts|
    ensures forall i | 0 <= i < |ps| :: ps[i] == Stage(hosts[i], true, Saved, Written(NEW), true, true, true)
  {
    seq(|hosts|, i requires 0 <= i < |hosts| => Stage(hosts[i], true, Saved, Written(NEW), true, true, true))
  }

  ghost predicate Forgotten(f: Files, h: nat) {
    Read(f, Conf(h)) != Some(OLD) && Read(f, Bak(h)) != Some(OLD)
  }

  lemma {:induction false} SecondStageForgets(f: Files, ps: seq<Stage>, i: nat, j: nat, n: nat, h: nat)
    requires i < j < |ps| && n <= |ps| && ps[i].host == h == ps[j].host
    requires forall k | 0 <= k < |ps| :: Stages(ps[k]) && ps[k].rendering.text == NEW
    ensures n > i ==> Read(StageFirst(f, ps, n), Conf(h)) == Some(NEW)
    ensures n > j ==> Forgotten(StageFirst(f, ps, n), h)
  {
    if n > 0 {
      SecondStageForgets(f, ps, i, j, n - 1, h);
      StagedHost(StageFirst(f, ps, n - 1), ps[n - 1]);
      hide Staged;
    }
  }

  lemma {:induction false} RollbackCannotRecall(s: Sys, ps: seq<Stage>, ops: seq<Op>, h: nat)
    requires Forgotten(s.files, h)
    ensures Forgotten(Rollback(s, ps, ops).files, h)
    decreases |ops|
  {
    if |ops| > 0 {
      RollbackCannotRecall(s, ps, ops[..|ops| - 1], h);
    }
  }

  lemma {:induction false} AllStage(ps: seq<Stage>)
    requires forall i | 0 <= i < |ps| :: Stages(ps[i])
    ensures StagedCount(ps) == |ps|
  {
    if |ps| > 0 { AllStage(ps[1..]); }
  }

  ghost predicate Names(ps: seq<Stage>, hosts: seq<nat>) {
    |ps| == |hosts| && forall i | 0 <= i < |ps| :: ps[i].host == hosts[i]
  }

  ghost predicate AlwaysRestores(hosts: seq<nat>) {
    forall s: Sys, ps, valid, ops | Names(ps, hosts) && Interleaves(ops, StagedCount(ps)) && !Succeeds(ps, valid) ::
      AllRestored(s, Batch(s, ps, valid, ops))
  }

  /**
   * A host named twice is backed up a second time from its own new file, so a failed validation can no
   * longer bring the old one back. Batches always restore exactly when their hosts are distinct.
   */
  lemma RestoresIffDistinct(hosts: seq<nat>)
    ensures AlwaysRestores(hosts) <==> forall i, j | 0 <= i < j < |hosts| :: hosts[i] != hosts[j]
  {
    if i, j :| 0 <= i < j < |hosts| && hosts[i] == hosts[j] {
      var h, n, ps := hosts[i], |hosts|, AllWritten(hosts);
      var s := Sys(map[Conf(h) := OLD], map[]);
      SequentialInterleaves(n);
      AllStage(ps);
      SecondStageForgets(s.files, ps, i, j, n, h);
      RollbackCannotRecall(s.(files := AfterStaging(s.files, ps)), ps[..n], Sequential(n), h);
      assert Names(ps, hosts) && !Succeeds(ps, false);
      assert !AllRestored(s, Batch(s, ps, false, Sequential(n)));
    } else {
      forall s: Sys, ps, valid, ops | Names(ps, hosts) && Interleaves(ops, StagedCount(ps)) && !Succeeds(ps, valid)
        ensures AllRestored(s, Batch(s, ps, valid, ops))
      {
        FailedBatchRestores(s, ps, valid, ops);
      }
    }
  }

  // ---------- The configuration service ----------

  class Nginx {
    var files: Files
    var status: map<nat, Status>

    ghost function View(): Sys
      reads this
    {
      Sys(files, status)
    }

    constructor (s: Sys)
      ensures View() == s
    {
      files, status := s.files, s.status;
    }

    method BackupConfig(h: nat, b: Backup) returns (ok: bool)
      modifies this`files
      ensures ok == b.Saved? && files == BackedUp(old(files), h, b)
    {
      if b.NotSaved? {
        if b.leftover.Some? { files := files[Bak(h) := b.leftover.value]; }
        return false;
      }
      if Conf(h) in files {
        files := files[Bak(h) := files[Conf(h)]];
      } else {
        files := files - {Bak(h)};
      }
      return true;
    }

    method GenerateConfig(h: nat, r: Rendering) returns (ok: bool)
      modifies this`files
      ensures ok == r.Written? && files == Rendered(old(files), h, r)
    {
      match r {
        case Written(text) => files := files[Conf(h) := text];
        case Broken(Some(text)) => files := files[Conf(h) := text];
        case Broken(None) =>
      }
      ok := r.Written?;
    }

    method RenameConfigAsError(h: nat)
      modifies this`files
      ensures files == Moved(old(files), Conf(h), Rejected(h))
    {
      if Conf(h) in files {
        files := (files - {Conf(h)})[Rejected(h) := files[Conf(h)]];
      }
    }

    method RestoreConfig(h: nat)
      modifies this`files
      ensures files == Moved(old(files), Bak(h), Conf(h))
    {
      if Bak(h) in files {
        files := (files - {Bak(h)})[Conf(h) := files[Bak(h)]];
      }
    }

    method DeleteBackupConfig(h: nat, ok: bool)
      modifies this`files
      ensures files == if ok then old(files) - {Bak(h)} else old(files)
    {
      if ok {
        files := files - {Bak(h)};
      }
    }

    /** configureHost with deferred validation: a failing host undoes itself. */
    method StageHost(p: Stage) returns (ok: bool)
      modifies this`files
      ensures ok == Stages(p) && files == Staged(old(files), p)
    {
      ok := BackupConfig(p.host, p.backup);
      if !ok {
        return;
      }
      ok := GenerateConfig(p.host, p.rendering);
      if !ok {
        RenameConfigAsError(p.host);
        RestoreConfig(p.host);
      }
    }

    /** configureHost on its own. */
    method ConfigureHost(p: Stage, valid: bool) returns (ok: bool)
      modifies this
      ensures ok <==> Installs(p, valid)
      ensures ok <==> p.backup.Saved? && p.rendering.Written? && valid && p.statusOk && p.cleanupOk
      ensures View() == Configured(old(View()), p, valid)
    {
      ok := StageHost(p);
      hide Staged;
      if !ok {
        return;
      }
      if valid && p.statusOk {
        status := status[p.host := Online(p.enabled)];
        DeleteBackupConfig(p.host, p.cleanupOk);
        if p.cleanupOk {
          return;
        }
      }
      ok := false;
      RenameConfigAsError(p.host);
      RestoreConfig(p.host);
      if p.rollbackStatusOk {
        status := status[p.host := RolledBack];
      }
    }

    method DeleteConfig(h: nat)
      modifies this`files
      ensures View() == Performed(old(View()), RemoveHost(h))
      ensures files == old(files) - {Conf(h), Rejected(h)}
    {
      files := files - {Conf(h)};
      files := files - {Rejected(h)};
    }

    method RollbackStagedConfig(p: Stage, step: Step)
      modifies this
      ensures View() == RollbackStep(old(View()), p, step)
    {
      match step {
        case Rename => RenameConfigAsError(p.host);
        case Restore => RestoreConfig(p.host);
        case WriteStatus => if p.rollbackStatusOk { status := status[p.host := RolledBack]; }
      }
    }

    /** The concurrent rollbacks, in the interleaving `ops`. */
    method RollbackAll(ps: seq<Stage>, ops: seq<Op>)
      modifies this
      ensures View() == Rollback(old(View()), ps, ops)
    {
      for k := 0 to |ops|
        invariant View() == Rollback(old(View()), ps, ops[..k])
      {
        assert ops[..k + 1][..k] == ops[..k];
        if ops[k].stage < |ps| {
          RollbackStagedConfig(ps[ops[k].stage], ops[k].step);
        }
      }
      assert ops[..|ops|] == ops;
    }

    /** Stage every host, validate once, then commit all or roll all back. */
    method BulkGenerateConfigs(ps: seq<Stage>, valid: bool, ops: seq<Op>) returns (committed: bool)
      modifies this
      ensures committed == Succeeds(ps, valid)
      ensures committed <==> valid && forall i | 0 <= i < |ps| :: ps[i].backup.Saved? && ps[i].rendering.Written? && ps[i].statusOk
      ensures View() == Batch(old(View()), ps, valid, ops)
    {
      CountIsFirstFailure(ps);
      if forall i | 0 <= i < |ps| :: Stages(ps[i]) { AllStage(ps); }
      var n := 0;
      var ok := true;
      while n < |ps| && ok
        invariant n <= |ps| && n <= StagedCount(ps)
        invariant ok ==> files == StageFirst(old(files), ps, n)
        invariant !ok ==> n == StagedCount(ps) < |ps| && files == AfterStaging(old(files), ps)
        invariant status == old(status)
        decreases |ps| - n, ok
      {
        ok := StageHost(ps[n]);
        if ok {
          StagedPrefix(ps, n);
          n := n + 1;
        } else {
          StoppedAt(ps, n);
        }
      }
      committed := ok && valid;
      if committed {
        assert ps[..n] == ps;
        for i := 0 to n
          invariant files == AfterStaging(old(files), ps)
          invariant status == Statuses(old(status), ps, i)
          invariant committed <==> forall j | 0 <= j < i :: ps[j].statusOk
        {
          if ps[i].statusOk {
            status := status[ps[i].host := Online(ps[i].enabled)];
          } else {
            committed := false;
          }
        }
      }
      if !committed {
        RollbackAll(ps[..n], ops);
        return;
      }
      for i := 0 to n
        invariant files == CleanedUp(AfterStaging(old(files), ps), ps, i)
        invariant status == Statuses(old(status), ps, n)
      {
        DeleteBackupConfig(ps[i].host, ps[i].cleanupOk);
      }
    }
  }

  lemma {:induction false} StagedPrefix(ps: seq<Stage>, n: nat)
    requires n < |ps| && n <= StagedCount(ps) && Stages(ps[n])
    ensures n + 1 <= StagedCount(ps)
  {
    CountIsFirstFailure(ps);
  }

  lemma StoppedAt(ps: seq<Stage>, n: nat)
    requires n < |ps| && n <= StagedCount(ps) && !Stages(ps[n])
    ensures n == StagedCount(ps)
  {
    CountIsFirstFailure(ps);
  }
}
