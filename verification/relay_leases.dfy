/** How many finalizers may run before a settling write can come from one that has lost its lease. */
module RelayLeases {
  import opened Wrappers
  import opened RelayTypes
  import opened RelayProtocol
  import opened RelaySafety
  import opened RelayRuns
  import opened RelayPromises

  /** The relay with room for `max` finalizers; the source sets one. */
  function NextUpTo(s: Sys, e: Event, max: nat): Sys {
    if e.StartFinalizer? then StartUpTo(s, max) else Next(s, e)
  }

  function RunUpTo(s: Sys, events: seq<Event>, max: nat): Sys
    decreases |events|
  {
    if |events| == 0 then s else NextUpTo(RunUpTo(s, events[..|events| - 1], max), events[|events| - 1], max)
  }

  /** Finalizer f of this state would write on settling although another lease is current. */
  ghost predicate StaleWrite(s: Sys, f: nat, failure: Option<FailureCode>) {
    && f in s.running && Leaseholder(s.running[f]) && s.running[f].upload in s.disk
    && var d := s.disk[s.running[f].upload];
       var m := s.running[f].pc.meta;
       SettlePlan(d, f, m.lease, failure).ops != [] && !(d.meta.Some? && d.meta.value.lease == m.lease)
  }

  ghost predicate LeaseProtects(max: nat) {
    forall maxPendingBytes, events, f, failure :: !StaleWrite(RunUpTo(Init(maxPendingBytes), events, max), f, failure)
  }

  // ---------- Up to one finalizer ----------

  lemma {:induction false} OneIsTheSource(s: Sys, events: seq<Event>)
    ensures RunUpTo(s, events, MAX_CONCURRENT_FINALIZERS) == Run(s, events)
    decreases |events|
  {
    if |events| > 0 {
      OneIsTheSource(s, events[..|events| - 1]);
      hide StartUpTo;
    }
  }

  lemma IdleStep(s: Sys, e: Event)
    requires s.running == map[]
    ensures NextUpTo(s, e, 0).running == map[]
  {
    if e.Append? || e.Finalize? || e.Delete? || e.Expire? || e.Recover? {
      NextClient(s, e);
      hide Next, AppendPlan, FinalizePlan, RemovePlan, ExpirePlan, RecoverPlan, Continue;
    } else if e.Write? || e.SyncFails? || e.IoError? {
      IdleFaults(s, e.upload);
      hide WriteStep, SyncFailsStep, IoErrorStep;
    } else {
      IdleRest(s, e);
      hide NextUpTo;
    }
  }

  lemma IdleRest(s: Sys, e: Event)
    requires s.running == map[]
    requires !(e.Append? || e.Finalize? || e.Delete? || e.Expire? || e.Recover? || e.Write? || e.SyncFails? || e.IoError?)
    ensures NextUpTo(s, e, 0).running == map[]
  {
    hide Begin, Pending, AllChunksPresent, PreparePlan, SettlePlan, Restrict;
  }

  lemma IdleFaults(s: Sys, u: Id)
    requires s.running == map[]
    ensures WriteStep(s, u).running == map[] && SyncFailsStep(s, u).running == map[] && IoErrorStep(s, u).running == map[]
  {
    hide Apply, Observe;
  }

  lemma {:induction false} NoneStarts(maxPendingBytes: nat, events: seq<Event>)
    ensures RunUpTo(Init(maxPendingBytes), events, 0).running == map[]
    decreases |events|
  {
    if |events| > 0 {
      NoneStarts(maxPendingBytes, events[..|events| - 1]);
      hide NextUpTo;
      IdleStep(RunUpTo(Init(maxPendingBytes), events[..|events| - 1], 0), events[|events| - 1]);
    }
  }

  // ---------- Two finalizers ----------

  lemma {:induction false} RunConcat(s: Sys, a: seq<Event>, b: seq<Event>, max: nat)
    ensures RunUpTo(s, a + b, max) == RunUpTo(RunUpTo(s, a, max), b, max)
    decreases |b|
  {
    if |b| == 0 {
      assert a + b == a;
    } else {
      assert (a + b)[..|a + b| - 1] == a + b[..|b| - 1];
      RunConcat(s, a, b[..|b| - 1], max);
      hide NextUpTo;
    }
  }

  lemma RunTwo(s: Sys, a: Event, b: Event, max: nat)
    ensures RunUpTo(s, [a, b], max) == NextUpTo(NextUpTo(s, a, max), b, max)
  {
    hide NextUpTo;
    assert [a, b][..1] == [a] && [a][..0] == [];
    assert RunUpTo(s, [a], max) == NextUpTo(s, a, max);
  }

  /** Upload 0 is stored with metadata m, nobody holds its lock, and these jobs wait. */
  ghost predicate At(s: Sys, m: Metadata, queue: seq<Job>) {
    && 0 in s.disk && 0 in s.accepted && 0 !in s.held && s.disk[0].meta == Some(m) && Loadable(m) && s.queue == queue
  }

  /** A block of one write, begun and finished. */
  lemma OneWrite(s: Sys, begun: Sys, op: DiskOp, then_: Then)
    requires 0 in s.disk && 0 in s.accepted && begun == s.(held := s.held[0 := Block([op], then_)])
    ensures WriteStep(begun, 0) == Continue(Perform(begun, 0, op).(held := begun.held - {0}), 0, then_)
  {
  }

  lemma Requeue(s: Sys, m: Metadata, config: Config, max: nat) returns (events: seq<Event>)
    requires At(s, m, []) && m.offset == m.length && m.state.Cancelled?
    ensures var s' := RunUpTo(s, events, max);
            At(s', Requeued(m, config, map[]), [Job(0, map[])]) && s'.running == s.running && s'.nextFinalizer == s.nextFinalizer
            && s'.nextLease == s.nextLease
  {
    hide Loadable;
    events := [Finalize(0, config, map[]), Write(0)];
    RunTwo(s, Finalize(0, config, map[]), Write(0), max);
    hide RunUpTo;
    assert ForwardedRequestHeaders(map[], config) == map[];
    var op := PutMeta(Requeued(m, config, map[]), []);
    var begun := NextUpTo(s, Finalize(0, config, map[]), max);
    assert begun == s.(held := s.held[0 := Block([op], Enqueue(map[]))]);
    OneWrite(s, begun, op, Enqueue(map[]));
    LoadableRequeued(m, config);
    hide NextUpTo, WriteStep;
    assert NextUpTo(begun, Write(0), max) == WriteStep(begun, 0);
  }

  lemma LoadableRequeued(m: Metadata, config: Config)
    requires Loadable(m) && m.state.Cancelled?
    ensures Loadable(Requeued(m, config, map[]))
  {
  }

  /** The first queued job is started and gets the lease. */
  lemma Grant(s: Sys, m: Metadata, config: Config, max: nat) returns (events: seq<Event>)
    requires At(s, m, [Job(0, map[])]) && m.state.Queued? && m.config.fingerprint == config.fingerprint && |s.running| < max
    requires s.nextFinalizer !in s.running
    ensures var s' := RunUpTo(s, events, max);
            && At(s', Leased(m, s.nextLease), [])
            && s'.running == s.running[s.nextFinalizer := Finalizer(0, map[], Holding(Leased(m, s.nextLease)))]
            && s'.nextFinalizer == s.nextFinalizer + 1 && s'.nextLease == s.nextLease + 1
  {
    hide Loadable;
    var f := s.nextFinalizer;
    events := [StartFinalizer, Prepare(f, Some(config))] + [Write(0)];
    RunConcat(s, [StartFinalizer, Prepare(f, Some(config))], [Write(0)], max);
    RunTwo(s, StartFinalizer, Prepare(f, Some(config)), max);
    RunOne(RunUpTo(s, [StartFinalizer, Prepare(f, Some(config))], max), Write(0), max);
    hide RunUpTo;
    StartOne(s, m, max);
    hide NextUpTo, Leased;
    var started := NextUpTo(s, StartFinalizer, max);
    LeaseOne(started, m, f, config, max);
    hide At;
    assert s.running[f := Finalizer(0, map[], Starting)][f := Finalizer(0, map[], Holding(Leased(m, s.nextLease)))]
        == s.running[f := Finalizer(0, map[], Holding(Leased(m, s.nextLease)))];
  }

  lemma StartOne(s: Sys, m: Metadata, max: nat)
    requires At(s, m, [Job(0, map[])]) && |s.running| < max
    ensures var f := s.nextFinalizer;
            NextUpTo(s, StartFinalizer, max)
            == s.(queue := [], running := s.running[f := Finalizer(0, map[], Starting)], nextFinalizer := f + 1)
    ensures At(NextUpTo(s, StartFinalizer, max), m, [])
  {
    hide Loadable;
    assert s.queue[1..] == [];
  }

  lemma LeaseOne(s: Sys, m: Metadata, f: nat, config: Config, max: nat)
    requires At(s, m, []) && m.state.Queued? && m.config.fingerprint == config.fingerprint
    requires f in s.running && s.running[f] == Finalizer(0, map[], Starting)
    ensures var granted := Leased(m, s.nextLease);
            var s' := NextUpTo(NextUpTo(s, Prepare(f, Some(config)), max), Write(0), max);
            && At(s', granted, []) && s'.running == s.running[f := Finalizer(0, map[], Holding(granted))]
            && s'.nextFinalizer == s.nextFinalizer && s'.nextLease == s.nextLease + 1
  {
    hide Loadable;
    var granted := Leased(m, s.nextLease);
    var op := PutMeta(granted, []);
    var locked := Lock(s, f).(nextLease := s.nextLease + 1);
    var begun := locked.(held := locked.held[0 := Block([op], Then.Grant(f, granted))]);
    LeaseBegins(s, m, f, config, max);
    LoadableLeased(m, s.nextLease);
    OneWrite(locked, begun, op, Then.Grant(f, granted));
    assert NextUpTo(begun, Write(0), max) == WriteStep(begun, 0);
    hide WriteStep, NextUpTo, Leased;
    assert locked.running[f := locked.running[f].(pc := Holding(granted))] == s.running[f := Finalizer(0, map[], Holding(granted))];
  }

  lemma LeaseBegins(s: Sys, m: Metadata, f: nat, config: Config, max: nat)
    requires At(s, m, []) && m.state.Queued? && m.config.fingerprint == config.fingerprint
    requires f in s.running && s.running[f] == Finalizer(0, map[], Starting)
    ensures var granted := Leased(m, s.nextLease);
            var locked := Lock(s, f).(nextLease := s.nextLease + 1);
            NextUpTo(s, Prepare(f, Some(config)), max)
            == locked.(held := locked.held[0 := Block([PutMeta(granted, [])], Then.Grant(f, granted))])
  {
    hide Loadable, Continue;
  }

  lemma RunOne(s: Sys, a: Event, max: nat)
    ensures RunUpTo(s, [a], max) == NextUpTo(s, a, max)
  {
    hide NextUpTo;
    assert [a][..0] == [];
  }

  lemma LoadableLeased(m: Metadata, lease: nat)
    requires Loadable(m) && m.state.Queued?
    ensures Loadable(Leased(m, lease))
  {
  }

  /** The client deletes an upload that is being forwarded. */
  lemma Cancel(s: Sys, m: Metadata, max: nat) returns (events: seq<Event>)
    requires At(s, m, []) && m.state.Forwarding?
    ensures var s' := RunUpTo(s, events, max);
            && At(s', m.(state := Cancelled, failure := ClientCancelled), [])
            && s'.running == s.running && s'.nextFinalizer == s.nextFinalizer && s'.nextLease == s.nextLease
  {
    events := [Delete(0), Write(0)];
    RunTwo(s, Delete(0), Write(0), max);
    hide RunUpTo;
    var cancelled := m.(state := Cancelled, failure := ClientCancelled);
    assert Loadable(cancelled);
    hide Loadable;
    var op := PutMeta(cancelled, []);
    var begun := NextUpTo(s, Delete(0), max);
    assert begun == s.(held := s.held[0 := Block([op], Nothing)]);
    OneWrite(s, begun, op, Nothing);
    hide WriteStep;
    assert NextUpTo(begun, Write(0), max) == WriteStep(begun, 0);
  }

  /** A block with more than one write left, after its first. */
  lemma FirstWrite(s: Sys, op: DiskOp, rest: seq<DiskOp>, then_: Then)
    requires 0 in s.disk && 0 in s.accepted && 0 in s.held && s.held[0] == Block([op] + rest, then_) && rest != []
    ensures WriteStep(s, 0) == Perform(s, 0, op).(held := s.held[0 := Block(rest, then_)])
  {
    assert ([op] + rest)[1..] == rest;
  }

  /** A one-byte upload, created, sent and queued. */
  lemma Upload(config: Config, max: nat) returns (events: seq<Event>, m: Metadata)
    requires config.chunkSize >= 1 && config.maxFileSize >= 1
    ensures var s' := RunUpTo(Init(1), events, max);
            && At(s', m, [Job(0, map[])]) && m.state.Queued? && m.offset == m.length && m.config == config
            && s'.running == map[] && s'.nextFinalizer == 0
  {
    var create := Create(config, max);
    var created := RunUpTo(Init(1), create, max);
    var send: seq<Event>;
    send, m := Send(created, config, max);
    events := create + send;
    RunConcat(Init(1), create, send, max);
  }

  lemma Create(config: Config, max: nat) returns (events: seq<Event>)
    requires config.maxFileSize >= 1
    ensures var s' := RunUpTo(Init(1), events, max);
            At(s', NewMetadata(1, config, 0), []) && s'.running == map[] && s'.nextFinalizer == 0
  {
    events := [CreateBegin(1, config), CreateEnd(0)];
    RunTwo(Init(1), CreateBegin(1, config), CreateEnd(0), max);
    hide RunUpTo;
    var begun := NextUpTo(Init(1), CreateBegin(1, config), max);
    assert Init(1).disk.Keys == {};
    assert begun == Init(1).(creating := Some(Creating(1, config, {}, map[], 0, 0)));
    assert Loadable(NewMetadata(1, config, 0));
  }

  lemma Send(s: Sys, config: Config, max: nat) returns (events: seq<Event>, m: Metadata)
    requires At(s, NewMetadata(1, config, 0), []) && config.chunkSize >= 1 && s.running == map[] && s.nextFinalizer == 0
    ensures var s' := RunUpTo(s, events, max);
            && At(s', m, [Job(0, map[])]) && m.state.Queued? && m.offset == m.length && m.config == config
            && s'.running == map[] && s'.nextFinalizer == 0
  {
    var blank := NewMetadata(1, config, 0);
    var sent := blank.(chunks := [Chunk(0, 1)], offset := 1);
    m := Requeued(sent, config, map[]);
    SentLoads(blank, sent, config);
    SendBegins(s, config, max);
    var ops := [PutPart(0, [7])] + ([PutMeta(sent, [7])] + [PutMeta(m, [])]);
    var begun := s.(held := s.held[0 := Block(ops, Enqueue(map[]))]);
    var append := Append(0, config, 0, 1, [7], map[]);
    events := [append, Write(0)] + [Write(0), Write(0)];
    RunTwo(s, append, Write(0), max);
    RunTwo(RunUpTo(s, [append, Write(0)], max), Write(0), Write(0), max);
    RunConcat(s, [append, Write(0)], [Write(0), Write(0)], max);
    ThreeWrites(begun, PutPart(0, [7]), sent, [7], m, max);
    hide RunUpTo, NextUpTo, Requeued, Loadable;
  }

  /** The first append is complete: it plans the chunk, its metadata and the queueing. */
  lemma SendBegins(s: Sys, config: Config, max: nat)
    requires At(s, NewMetadata(1, config, 0), []) && config.chunkSize >= 1
    ensures var sent := NewMetadata(1, config, 0).(chunks := [Chunk(0, 1)], offset := 1);
            var ops := [PutPart(0, [7])] + ([PutMeta(sent, [7])] + [PutMeta(Requeued(sent, config, map[]), [])]);
            NextUpTo(s, Append(0, config, 0, 1, [7], map[]), max) == s.(held := s.held[0 := Block(ops, Enqueue(map[]))])
  {
    hide Loadable, Requeued, Continue;
    var blank := NewMetadata(1, config, 0);
    var sent := blank.(chunks := [Chunk(0, 1)], offset := 1);
    var ops := [PutPart(0, [7])] + ([PutMeta(sent, [7])] + [PutMeta(Requeued(sent, config, map[]), [])]);
    assert ForwardedRequestHeaders(map[], config) == map[];
    hide ForwardedRequestHeaders;
    assert Advanced(blank, 1) == sent;
    assert QueuePlan(sent, config, map[]) == Plan([PutMeta(Requeued(sent, config, map[]), [])], Enqueue(map[]));
    hide QueuePlan;
    assert [PutPart(0, [7]), PutMeta(sent, [7])] + [PutMeta(Requeued(sent, config, map[]), [])] == ops;
    assert AppendPlan(blank, config, 0, 1, [7], map[]) == Ok(Plan(ops, Enqueue(map[])));
    hide AppendPlan;
  }

  lemma ThreeWrites(s: Sys, part: DiskOp, sent: Metadata, data: Bytes, m: Metadata, max: nat)
    requires 0 in s.disk && 0 in s.accepted && 0 in s.held && part.PutPart? && Loadable(m) && s.queue == []
    requires s.held[0] == Block([part] + ([PutMeta(sent, data)] + [PutMeta(m, [])]), Enqueue(map[]))
    ensures var s' := NextUpTo(NextUpTo(NextUpTo(s, Write(0), max), Write(0), max), Write(0), max);
            At(s', m, [Job(0, map[])]) && s'.running == s.running && s'.nextFinalizer == s.nextFinalizer
  {
    hide Loadable, Observe;
    FirstWrite(s, part, [PutMeta(sent, data)] + [PutMeta(m, [])], Enqueue(map[]));
    var s2 := WriteStep(s, 0);
    assert s2 == NextUpTo(s, Write(0), max);
    FirstWrite(s2, PutMeta(sent, data), [PutMeta(m, [])], Enqueue(map[]));
    var s3 := WriteStep(s2, 0);
    assert s3 == NextUpTo(s2, Write(0), max);
    OneWrite(s3.(held := s3.held - {0}), s3, PutMeta(m, []), Enqueue(map[]));
    assert NextUpTo(s3, Write(0), max) == WriteStep(s3, 0);
    hide WriteStep, NextUpTo;
  }

  lemma SentLoads(blank: Metadata, sent: Metadata, config: Config)
    requires Loadable(blank) && blank.length == 1 && sent == blank.(chunks := [Chunk(0, 1)], offset := 1)
    ensures Loadable(Requeued(sent, config, map[]))
  {
    assert [Chunk(0, 1)][1..] == [] && [Chunk(0, 1)][..0] == [];
  }

  /** Cancelled while it is sent, queued again by the client, granted to a second finalizer and cancelled again. */
  lemma TwoFinalizersBreakIt(max: nat) returns (events: seq<Event>)
    requires max >= 2
    ensures StaleWrite(RunUpTo(Init(1), events, max), 0, None)
  {
    hide Loadable, SettlePlan;
    var config := Config(1, 1, 1, false, "origin");
    var upload, m := Upload(config, max);
    var s0 := RunUpTo(Init(1), upload, max);
    var grant := Grant(s0, m, config, max);
    var s1 := RunUpTo(s0, grant, max);
    var m1 := Leased(m, s0.nextLease);
    var cancel := Cancel(s1, m1, max);
    var s2 := RunUpTo(s1, cancel, max);
    var m2 := m1.(state := Cancelled, failure := ClientCancelled);
    var requeue := Requeue(s2, m2, config, max);
    var s3 := RunUpTo(s2, requeue, max);
    var m3 := Requeued(m2, config, map[]);
    assert |s3.running| == 1;
    var regrant := Grant(s3, m3, config, max);
    var s4 := RunUpTo(s3, regrant, max);
    var m4 := Leased(m3, s3.nextLease);
    var recancel := Cancel(s4, m4, max);
    var s5 := RunUpTo(s4, recancel, max);
    RunConcat(Init(1), upload, grant, max);
    RunConcat(Init(1), upload + grant, cancel, max);
    RunConcat(Init(1), upload + grant + cancel, requeue, max);
    RunConcat(Init(1), upload + grant + cancel + requeue, regrant, max);
    RunConcat(Init(1), upload + grant + cancel + requeue + regrant, recancel, max);
    events := upload + grant + cancel + requeue + regrant + recancel;
    hide RunUpTo;
    assert s5.running[0].pc == Holding(m1) && s5.disk[0].meta.value.lease == m1.lease + 1;
    LeaseCheckExact(s5.disk[0], 0, m1.lease, None);
  }

  /**
   * A finalizer that has lost its lease never writes on settling, in any run, exactly when at most one
   * finalizer may run at a time, which is the limit the source sets.
   */
  lemma {:induction false} LeaseProtectsIffOneFinalizer(max: nat)
    ensures LeaseProtects(max) <==> max <= 1
  {
    if max >= 2 {
      var events := TwoFinalizersBreakIt(max);
    } else {
      forall maxPendingBytes, events, f, failure
        ensures !StaleWrite(RunUpTo(Init(maxPendingBytes), events, max), f, failure)
      {
        if max == 0 {
          NoneStarts(maxPendingBytes, events);
        } else {
          OneIsTheSource(Init(maxPendingBytes), events);
          var s := Run(Init(maxPendingBytes), events);
          if f in s.running && Leaseholder(s.running[f]) && s.running[f].upload in s.disk {
            OnlyTheLeaseholderSettles(maxPendingBytes, events, f, failure);
          }
        }
        hide Run, RunUpTo, SettlePlan;
      }
    }
  }
}
