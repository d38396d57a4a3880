/**
 * The analytics domain cache: shared loads, change notifications that overtake a running read, and
 * service restarts. Every await is a point where any other event may happen.
 */
module DomainCache {
  import opened Wrappers

  datatype Outcome = Running | Applied | NotApplied

  /** One readDomains(): `snapshot` is the committed version its current query has read, if any. */
  datatype Load = Load(generation: nat, revision: nat, snapshot: Option<nat>, outcome: Outcome)

  /** What a loadDomains() call saw when it returned. */
  datatype Return = Return(applied: bool, sameGeneration: bool, cacheRevision: int, cacheVersion: nat)

  /** One loadDomains() call; `revision` and `version` are history: what was current at the call. */
  datatype Caller = Caller(generation: nat, revision: nat, version: nat, pending: nat, returned: Option<Return>)

  datatype State = State(
    generation: nat,
    revision: nat,
    appliedRevision: int,
    cacheVersion: nat,          // the committed version published in hostCache
    promise: Option<nat>,       // domainLoadPromise
    loads: seq<Load>,
    callers: seq<Caller>,
    db: nat,                    // number of committed host changes
    notified: seq<nat>)         // history: the committed version when each revision was announced

  datatype Event =
    | Commit
    | Notify            // the subscriber: bump the revision, then call loadDomains()
    | Call              // any other loadDomains()
    | Query(load: nat)  // the query of a running load reads the database
    | Arrive(load: nat) // its rows arrive
    | Fail(load: nat)
    | Resume(caller: nat)
    | Stop

  function Init(): State {
    State(0, 0, -1, 0, None, [], [], 0, [0])
  }

  /** The top of loadDomains' loop: join the shared load or start one. */
  function Joined(s: State): State {
    if s.promise.Some? then s
    else s.(promise := Some(|s.loads|), loads := s.loads + [Load(s.generation, s.revision, None, Running)])
  }

  function CallStep(s: State): State
    requires |s.notified| > 0
  {
    var j := Joined(s);
    j.(callers := j.callers + [Caller(j.generation, j.revision, j.notified[|j.notified| - 1], j.promise.value, None)])
  }

  /** Rows arrive: drop them in a later generation, read again after a change, or publish. */
  function ArriveStep(s: State, i: nat): State
    requires i < |s.loads|
  {
    var l := s.loads[i];
    if l.outcome != Running || l.snapshot.None? then s
    else if l.generation != s.generation then s.(loads := s.loads[i := l.(outcome := NotApplied)])
    else if l.revision != s.revision then s.(loads := s.loads[i := l.(revision := s.revision, snapshot := None)])
    else s.(cacheVersion := l.snapshot.value, appliedRevision := l.revision, loads := s.loads[i := l.(outcome := Applied)])
  }

  function Returning(s: State, i: nat, applied: bool): State
    requires i < |s.callers|
  {
    var r := Return(applied, s.callers[i].generation == s.generation, s.appliedRevision, s.cacheVersion);
    s.(callers := s.callers[i := s.callers[i].(returned := Some(r))])
  }

  /** The awaiting caller continues: clear the promise, then return or go round again. */
  function ResumeStep(s: State, i: nat): State
    requires i < |s.callers|
  {
    var c := s.callers[i];
    if c.returned.Some? || c.pending >= |s.loads| || s.loads[c.pending].outcome == Running then s
    else
      var applied := s.loads[c.pending].outcome == Applied;
      var cleared := if s.promise == Some(c.pending) then s.(promise := None) else s;
      if !applied || s.appliedRevision == s.revision || c.generation != s.generation then Returning(cleared, i, applied)
      else
        var j := Joined(cleared);
        j.(callers := j.callers[i := c.(pending := j.promise.value)])
  }

  /** Events that cannot happen in a state leave it unchanged. */
  function Next(s: State, e: Event): State {
    match e
    case Commit => s.(db := s.db + 1)
    case Notify => CallStep(s.(revision := s.revision + 1, notified := s.notified + [s.db]))
    case Call => if |s.notified| > 0 then CallStep(s) else s
    case Query(i) =>
      if i < |s.loads| && s.loads[i].outcome == Running && s.loads[i].snapshot.None?
      then s.(loads := s.loads[i := s.loads[i].(snapshot := Some(s.db))]) else s
    case Arrive(i) => if i < |s.loads| then ArriveStep(s, i) else s
    case Fail(i) =>
      if i < |s.loads| && s.loads[i].outcome == Running then s.(loads := s.loads[i := s.loads[i].(outcome := NotApplied)]) else s
    case Resume(i) => if i < |s.callers| then ResumeStep(s, i) else s
    case Stop => s.(generation := s.generation + 1, promise := None)
  }

  function Run(events: seq<Event>): State
    decreases |events|
  {
    if |events| == 0 then Init() else Next(Run(events[..|events| - 1]), events[|events| - 1])
  }

  // ---------- Invariant ----------

  ghost predicate RevisionsInv(s: State) {
    && |s.notified| == s.revision + 1
    && (forall i, j | 0 <= i <= j <= s.revision :: s.notified[i] <= s.notified[j])
    && (forall i | 0 <= i <= s.revision :: s.notified[i] <= s.db)
  }

  ghost predicate LoadOk(s: State, l: Load) {
    && l.revision < |s.notified|
    && (l.snapshot.Some? ==> s.notified[l.revision] <= l.snapshot.value <= s.db)
  }

  ghost predicate LoadsInv(s: State) {
    && (forall i | 0 <= i < |s.loads| :: LoadOk(s, s.loads[i]))
    && (s.promise.Some? ==> s.promise.value < |s.loads| && s.loads[s.promise.value].generation == s.generation)
  }

  ghost predicate CacheInv(s: State) {
    && -1 <= s.appliedRevision < |s.notified|
    && (s.appliedRevision >= 0 ==> s.notified[s.appliedRevision] <= s.cacheVersion <= s.db)
  }

  /** A return after an applied load, in the generation of the call, sees a cache at least as new as the call. */
  ghost predicate FreshReturn(c: Caller) {
    c.returned.Some? && c.returned.value.applied && c.returned.value.sameGeneration ==>
      c.returned.value.cacheRevision >= c.revision && c.returned.value.cacheVersion >= c.version
  }

  ghost predicate CallerOk(s: State, c: Caller) {
    c.revision < |s.notified| && c.version == s.notified[c.revision] && c.pending < |s.loads| && FreshReturn(c)
  }

  ghost predicate CallersInv(s: State) {
    forall i | 0 <= i < |s.callers| :: CallerOk(s, s.callers[i])
  }

  ghost predicate Inv(s: State) {
    RevisionsInv(s) && LoadsInv(s) && CacheInv(s) && CallersInv(s)
  }

  lemma JoinedInv(s: State)
    requires Inv(s)
    ensures Inv(Joined(s)) && Joined(s).promise.Some?
  {
  }

  lemma CallInv(s: State)
    requires Inv(s)
    ensures Inv(CallStep(s))
  {
    JoinedInv(s);
  }

  lemma BumpInv(s: State)
    requires Inv(s)
    ensures Inv(s.(revision := s.revision + 1, notified := s.notified + [s.db]))
  {
  }

  /** Replacing one caller by an acceptable one. */
  lemma CallerInv(s: State, i: nat, c: Caller)
    requires Inv(s) && i < |s.callers| && CallerOk(s, c)
    ensures Inv(s.(callers := s.callers[i := c]))
  {
    var t := s.(callers := s.callers[i := c]);
    forall j | 0 <= j < |t.callers| ensures CallerOk(t, t.callers[j]) {
      assert CallerOk(s, s.callers[j]);
    }
    assert LoadsInv(t) by { forall j | 0 <= j < |t.loads| ensures LoadOk(t, t.loads[j]) { assert LoadOk(s, s.loads[j]); } }
  }

  lemma ClearInv(s: State)
    requires Inv(s)
    ensures Inv(s.(promise := None))
  {
  }

  lemma ResumeInv(s: State, i: nat)
    requires Inv(s) && i < |s.callers|
    ensures Inv(ResumeStep(s, i))
  {
    var c := s.callers[i];
    assert CallerOk(s, c);
    var cleared := if s.promise == Some(c.pending) then s.(promise := None) else s;
    ClearInv(s);
    JoinedInv(cleared);
    var j := Joined(cleared);
    assert LoadsInv(j);
    assert CacheInv(cleared) && RevisionsInv(cleared);
    hide Inv, LoadsInv, CallersInv, LoadOk, CacheInv;
    var r := Return(s.loads[c.pending].outcome == Applied, c.generation == s.generation, s.appliedRevision, s.cacheVersion);
    if !r.applied || s.appliedRevision == s.revision || c.generation != s.generation {
      if r.applied && r.sameGeneration { AppliedIsFresh(s, c); }
      CallerInv(cleared, i, c.(returned := Some(r)));
    } else if c.returned.None? {
      PromiseInRange(j);
      CallerInv(j, i, c.(pending := j.promise.value));
    }
  }

  lemma AppliedIsFresh(s: State, c: Caller)
    requires Inv(s) && CallerOk(s, c) && s.appliedRevision == s.revision
    ensures s.appliedRevision >= c.revision && s.cacheVersion >= c.version
  {
  }

  lemma PromiseInRange(s: State)
    requires Inv(s) && s.promise.Some?
    ensures s.promise.value < |s.loads|
  {
  }

  /** Replacing one load by an acceptable one of the same generation. */
  lemma LoadInv(s: State, i: nat, l: Load)
    requires Inv(s) && i < |s.loads| && LoadOk(s, l) && l.generation == s.loads[i].generation
    ensures Inv(s.(loads := s.loads[i := l]))
  {
    var t := s.(loads := s.loads[i := l]);
    forall j | 0 <= j < |t.loads| ensures LoadOk(t, t.loads[j]) { assert LoadOk(s, s.loads[j]); }
    forall j | 0 <= j < |t.callers| ensures CallerOk(t, t.callers[j]) { assert CallerOk(s, s.callers[j]); }
  }

  lemma CommitInv(s: State)
    requires Inv(s)
    ensures Inv(s.(db := s.db + 1))
  {
  }

  lemma StopInv(s: State)
    requires Inv(s)
    ensures Inv(s.(generation := s.generation + 1, promise := None))
  {
  }

  lemma PublishInv(s: State, i: nat)
    requires Inv(s) && i < |s.loads| && s.loads[i].snapshot.Some?
    ensures Inv(s.(cacheVersion := s.loads[i].snapshot.value, appliedRevision := s.loads[i].revision))
  {
    assert LoadOk(s, s.loads[i]);
  }

  lemma ArriveInv(s: State, i: nat)
    requires Inv(s) && i < |s.loads|
    ensures Inv(ArriveStep(s, i))
  {
    var l := s.loads[i];
    assert LoadOk(s, l) && |s.notified| == s.revision + 1;
    hide Inv;
    if l.outcome == Running && l.snapshot.Some? {
      PublishInv(s, i);
      LoadInv(s, i, l.(outcome := NotApplied));
      LoadInv(s, i, l.(revision := s.revision, snapshot := None));
      LoadInv(s.(cacheVersion := l.snapshot.value, appliedRevision := l.revision), i, l.(outcome := Applied));
    }
  }

  lemma QueryInv(s: State, i: nat)
    requires Inv(s) && i < |s.loads|
    ensures Inv(s.(loads := s.loads[i := s.loads[i].(snapshot := Some(s.db))]))
  {
    assert LoadOk(s, s.loads[i]) && LoadOk(s, s.loads[i].(snapshot := Some(s.db)));
    hide Inv, LoadOk;
    LoadInv(s, i, s.loads[i].(snapshot := Some(s.db)));
  }

  lemma FailInv(s: State, i: nat)
    requires Inv(s) && i < |s.loads|
    ensures Inv(s.(loads := s.loads[i := s.loads[i].(outcome := NotApplied)]))
  {
    assert LoadOk(s, s.loads[i]);
    assert LoadOk(s, s.loads[i].(outcome := NotApplied));
    hide Inv, LoadOk;
    LoadInv(s, i, s.loads[i].(outcome := NotApplied));
  }

  /** Events on one load. */
  lemma LoadEventInv(s: State, e: Event)
    requires Inv(s) && (e.Query? || e.Arrive? || e.Fail?)
    ensures Inv(Next(s, e))
  {
    hide Inv, ArriveStep, LoadOk, CallerOk;
    if e.load < |s.loads| {
      match e
      case Query(i) => QueryInv(s, i);
      case Arrive(i) => ArriveInv(s, i);
      case Fail(i) => FailInv(s, i);
    }
  }

  lemma CallEventInv(s: State, e: Event)
    requires Inv(s) && (e.Notify? || e.Call? || e.Resume?)
    ensures Inv(Next(s, e))
  {
    assert |s.notified| == s.revision + 1;
    hide Inv, ResumeStep, CallStep, LoadOk, CallerOk;
    match e
    case Notify => BumpInv(s); CallInv(s.(revision := s.revision + 1, notified := s.notified + [s.db]));
    case Call => CallInv(s);
    case Resume(i) => if i < |s.callers| { ResumeInv(s, i); }
  }

  lemma NextInv(s: State, e: Event)
    requires Inv(s)
    ensures Inv(Next(s, e))
  {
    hide Inv;
    if e.Query? || e.Arrive? || e.Fail? {
      LoadEventInv(s, e);
      hide Next;
    } else if e.Notify? || e.Call? || e.Resume? {
      CallEventInv(s, e);
      hide Next;
    } else {
      CommitInv(s);
      StopInv(s);
    }
  }

  lemma {:induction false} RunInv(events: seq<Event>)
    ensures Inv(Run(events))
    decreases |events|
  {
    if |events| > 0 {
      RunInv(events[..|events| - 1]);
      hide Inv;
      NextInv(Run(events[..|events| - 1]), events[|events| - 1]);
    }
  }

  /**
   * For every interleaving of calls, notifications, reads, failures and restarts: the applied revision
   * never exceeds the announced one, and a loadDomains() that returns after an applied load in its own
   * generation sees a cache from a revision no older than the one current when it was called, holding
   * every change committed before that revision was announced.
   */
  lemma ReturnsAreFresh(events: seq<Event>, i: nat)
    requires i < |Run(events).callers|
    ensures Run(events).appliedRevision <= Run(events).revision
    ensures FreshReturn(Run(events).callers[i])
  {
    RunInv(events);
    hide Run;
    assert CallerOk(Run(events), Run(events).callers[i]);
  }

  // ---------- What is published, and by whom ----------

  /** Rows that arrive for a running load of the current generation, read after the latest change. */
  predicate Publishes(s: State, e: Event) {
    && e.Arrive? && e.load < |s.loads| && s.loads[e.load].outcome == Running && s.loads[e.load].snapshot.Some?
    && s.loads[e.load].generation == s.generation && s.loads[e.load].revision == s.revision
  }

  /**
   * The cache changes only by such rows, to the version they were read at; a load from before a restart or before the
   * latest change publishes nothing.
   */
  lemma {:induction false} OnlyCurrentLoadsPublish(events: seq<Event>, e: Event)
    ensures var s, t := Run(events), Next(Run(events), e);
            if Publishes(s, e) then t.cacheVersion == s.loads[e.load].snapshot.value && t.appliedRevision == s.revision
            else t.cacheVersion == s.cacheVersion && t.appliedRevision == s.appliedRevision
  {
    hide Run;
  }

  /** Calls share the read in progress: a running load of the current generation is the one to join. */
  ghost predicate Shared(s: State) {
    && (forall i | 0 <= i < |s.loads| :: s.loads[i].generation <= s.generation)
    && (forall i | 0 <= i < |s.loads| && s.loads[i].outcome == Running && s.loads[i].generation == s.generation ::
          s.promise == Some(i))
  }

  lemma JoinedShared(s: State)
    requires Shared(s)
    ensures Shared(Joined(s)) && Joined(s).promise.Some?
  {
  }

  lemma ResumeShared(s: State, i: nat)
    requires Shared(s) && i < |s.callers|
    ensures Shared(ResumeStep(s, i))
  {
    var c := s.callers[i];
    if c.pending < |s.loads| && s.loads[c.pending].outcome != Running {
      var cleared := if s.promise == Some(c.pending) then s.(promise := None) else s;
      assert Shared(cleared);
      JoinedShared(cleared);
      hide Joined;
    }
  }

  lemma NextShared(s: State, e: Event)
    requires Shared(s)
    ensures Shared(Next(s, e))
  {
    match e
    case Notify => JoinedShared(s.(revision := s.revision + 1, notified := s.notified + [s.db])); hide Joined, ResumeStep;
    case Call => JoinedShared(s); hide Joined, ResumeStep;
    case Resume(i) => if i < |s.callers| { ResumeShared(s, i); } hide ResumeStep, Joined;
    case _ => hide ResumeStep, CallStep;
  }

  lemma {:induction false} RunShared(events: seq<Event>)
    ensures Shared(Run(events))
    decreases |events|
  {
    if |events| > 0 {
      RunShared(events[..|events| - 1]);
      hide Shared, Next;
      NextShared(Run(events[..|events| - 1]), events[|events| - 1]);
    }
  }

  /** Over every run at most one read of the current generation is in progress, and every new call joins it. */
  lemma {:induction false} CallsShareOneLoad(events: seq<Event>, i: nat, j: nat)
    requires var s := Run(events);
             && i < |s.loads| && s.loads[i].outcome == Running && s.loads[i].generation == s.generation
             && j < |s.loads| && s.loads[j].outcome == Running && s.loads[j].generation == s.generation
    ensures i == j
    ensures var s, t := Run(events), Next(Run(events), Call);
            t.loads == s.loads && |t.callers| == |s.callers| + 1 && t.callers[|s.callers|].pending == i
  {
    RunShared(events);
    RunInv(events);
    hide Run;
  }

  // ---------- Nothing is forgotten ----------

  ghost predicate Disturbed(e: Event) {
    e.Fail? || e.Stop?
  }

  ghost predicate SomeoneWaits(s: State) {
    exists i :: 0 <= i < |s.callers| && s.callers[i].returned.None?
  }

  ghost predicate Covered(s: State) {
    && Undisturbed(s)
    && (s.callers == [] || s.appliedRevision == s.revision || SomeoneWaits(s))
  }

  ghost predicate Undisturbed(s: State) {
    && s.generation == 0
    && (forall i | 0 <= i < |s.loads| :: s.loads[i].generation == 0 && s.loads[i].outcome != NotApplied)
    && (forall i | 0 <= i < |s.callers| :: s.callers[i].generation == 0)
  }

  lemma CallCovered(s: State)
    requires Undisturbed(s) && |s.notified| > 0
    ensures Covered(CallStep(s))
  {
    var t := CallStep(s);
    assert t.callers[|t.callers| - 1].returned.None?;
  }

  lemma ArriveCovered(s: State, i: nat)
    requires Covered(s) && i < |s.loads|
    ensures Covered(ArriveStep(s, i))
  {
    assert ArriveStep(s, i).callers == s.callers;
  }

  /** A caller leaves only once the latest revision is applied. */
  lemma ResumeCovered(s: State, i: nat)
    requires Covered(s) && i < |s.callers| && s.callers[i].pending < |s.loads|
    ensures Covered(ResumeStep(s, i))
  {
    var t := ResumeStep(s, i);
    if t.callers[i].returned.None? {
      assert SomeoneWaits(t);
    }
  }

  lemma NextCovered(s: State, e: Event)
    requires Inv(s) && Covered(s) && !Disturbed(e)
    ensures Covered(Next(s, e))
  {
    assert |s.notified| > 0;
    match e
    case Notify => CallCovered(s.(revision := s.revision + 1, notified := s.notified + [s.db]));
    case Call => CallCovered(s);
    case Resume(i) => if i < |s.callers| { assert CallerOk(s, s.callers[i]); ResumeCovered(s, i); }
    case Arrive(i) => if i < |s.loads| { ArriveCovered(s, i); }
    case Query(_) => hide Inv; assert Next(s, e).callers == s.callers;
    case Commit => hide Inv; assert Next(s, e).callers == s.callers;
  }

  /**
   * Without failed reads or restarts no announced change is forgotten: once every call has returned,
   * the published cache is that of the latest revision.
   */
  lemma {:induction false} QuietMeansCurrent(events: seq<Event>)
    requires forall e | e in events :: !Disturbed(e)
    ensures Covered(Run(events))
    ensures var s := Run(events);
            s.callers != [] && !SomeoneWaits(s) ==>
              s.appliedRevision == s.revision && |s.notified| == s.revision + 1 && s.cacheVersion >= s.notified[s.revision]
    decreases |events|
  {
    RunInv(events);
    if |events| > 0 {
      var front := events[..|events| - 1];
      QuietMeansCurrent(front);
      RunInv(front);
      hide Next, Covered, Inv;
      NextCovered(Run(front), events[|events| - 1]);
    }
  }

  // ---------- The service ----------

  /** The fields the service updates; between two awaits each method is one step of the machine above. */
  class Cache {
    var generation: nat
    var revision: nat
    var appliedRevision: int
    var cacheVersion: nat
    var promise: Option<nat>
    var loads: seq<Load>
    var callers: seq<Caller>
    var db: nat
    var notified: seq<nat>              // history

    ghost function View(): State
      reads this
    {
      State(generation, revision, appliedRevision, cacheVersion, promise, loads, callers, db, notified)
    }

    constructor ()
      ensures View() == Init()
    {
      generation, revision, appliedRevision, cacheVersion, promise := 0, 0, -1, 0, None;
      loads, callers, db, notified := [], [], 0, [0];
    }

    /** Join the shared load, or start one and share it. */
    method Join() returns (pending: nat)
      modifies this`promise, this`loads
      ensures View() == Joined(old(View())) && promise == Some(pending)
    {
      if promise.None? {
        promise := Some(|loads|);
        loads := loads + [Load(generation, revision, None, Running)];
      }
      pending := promise.value;
    }

    method LoadDomains() returns (caller: nat)
      requires |notified| > 0
      modifies this
      ensures View() == Next(old(View()), Call) && caller < |callers|
    {
      var pending := Join();
      var version := notified[|notified| - 1];
      caller := |callers|;
      callers := callers + [Caller(generation, revision, version, pending, None)];
    }

    method DomainsChanged() returns (caller: nat)
      modifies this
      ensures View() == Next(old(View()), Notify) && caller < |callers|
    {
      revision := revision + 1;
      notified := notified + [db];
      caller := LoadDomains();
    }

    method RowsArrived(i: nat)
      requires i < |loads|
      modifies this
      ensures View() == Next(old(View()), Arrive(i))
    {
      var load := loads[i];
      if load.outcome != Running || load.snapshot.None? {
        return;
      }
      if load.generation != generation {
        loads := loads[i := load.(outcome := NotApplied)];
      } else if load.revision != revision {
        loads := loads[i := load.(revision := revision, snapshot := None)];
      } else {
        cacheVersion := load.snapshot.value;
        appliedRevision := load.revision;
        loads := loads[i := load.(outcome := Applied)];
      }
    }

    method LoadSettled(i: nat)
      requires i < |callers|
      modifies this
      ensures View() == Next(old(View()), Resume(i))
      ensures old(callers)[i].returned.None? && old(callers)[i].pending < |old(loads)|
              && old(loads)[old(callers)[i].pending].outcome == NotApplied ==>
                callers[i].returned.Some? && !callers[i].returned.value.applied && loads == old(loads)
    {
      var caller := callers[i];
      if caller.returned.Some? || caller.pending >= |loads| || loads[caller.pending].outcome == Running {
        return;
      }
      var applied := loads[caller.pending].outcome == Applied;
      if promise == Some(caller.pending) {
        promise := None;
      }
      if !applied || appliedRevision == revision || caller.generation != generation {
        var r := Return(applied, caller.generation == generation, appliedRevision, cacheVersion);
        callers := callers[i := caller.(returned := Some(r))];
        return;
      }
      var pending := Join();
      callers := callers[i := caller.(pending := pending)];
    }

    method Stop()
      modifies this
      ensures View() == Next(old(View()), Event.Stop)
    {
      generation := generation + 1;
      promise := None;
    }
  }
}
