/**
 * Analytics buffering: lines keep arriving while a flush is in flight. Counts are conserved through
 * flush success, flush failure with merge-back, and trimming under pressure.
 */
module AnalyticsBuffers {
  import opened AnalyticsUpsert

  const DETAILED_LOG_BUFFER_LIMIT := 1000
  const AGGREGATION_BUFFER_LIMIT := 500
  const MINUTE_MS := 60_000

  /** A parsed access-log line whose host is already resolved. */
  datatype Line = Line(host: nat, time: int, status: int, bytes: int, details: string)

  /** A flush between its buffer swap and its two asynchronous writes. */
  datatype Phase =
    | Idle
    | WritingDetails(details: seq<Line>, rows: seq<Row>)
    | WritingAggregates(rows: seq<Row>)

  datatype State = State(
    aggregates: seq<Row>,               // insertion-ordered map: keys are distinct
    details: seq<Line>,
    phase: Phase,
    table: map<Key, Counters>,
    stored: multiset<Line>,
    processed: seq<Row>,                // history: what every processed line counted
    processedLines: multiset<Line>,
    dropped: seq<Row>,                  // history: aggregates given up
    droppedLines: multiset<Line>)

  datatype Event =
    | Process(line: Line)
    | Flush
    | DetailsWritten(ok: bool)
    | AggregatesWritten(ok: bool)

  // ---------- Steps ----------

  function CountersOf(line: Line): Counters {
    Counters(1, line.bytes,
             if 200 <= line.status < 300 then 1 else 0,
             if 300 <= line.status < 400 then 1 else 0,
             if 400 <= line.status < 500 then 1 else 0,
             if 500 <= line.status then 1 else 0)
  }

  function RowOf(line: Line): Row {
    Row((line.host, line.time / MINUTE_MS * MINUTE_MS), CountersOf(line))
  }

  function Excess(n: nat, limit: nat): nat {
    if n > limit then n - limit else 0
  }

  /** flush() runs synchronously up to its first write; while one is in flight it does nothing. */
  function BeginFlush(s: State): State {
    if s.phase.Idle? then s.(phase := WritingDetails(s.details, s.aggregates), details := [], aggregates := []) else s
  }

  /** Give up the oldest rows beyond the limits. */
  function Trimmed(s: State): State {
    var a := Excess(|s.aggregates|, AGGREGATION_BUFFER_LIMIT);
    var d := Excess(|s.details|, DETAILED_LOG_BUFFER_LIMIT);
    s.(aggregates := s.aggregates[a..], dropped := s.dropped + s.aggregates[..a],
       details := s.details[d..], droppedLines := s.droppedLines + multiset(s.details[..d]))
  }

  function Backpressure(s: State): State {
    Trimmed(if |s.details| >= DETAILED_LOG_BUFFER_LIMIT || |s.aggregates| >= AGGREGATION_BUFFER_LIMIT then BeginFlush(s) else s)
  }

  function ProcessStep(s: State, line: Line): State {
    Backpressure(s.(aggregates := Merged(s.aggregates, RowOf(line)), details := s.details + [line],
                    processed := s.processed + [RowOf(line)], processedLines := s.processedLines + multiset{line}))
  }

  function DetailsStep(s: State, ok: bool): State {
    if !s.phase.WritingDetails? then s
    else
      var next := s.(phase := WritingAggregates(s.phase.rows));
      if ok then next.(stored := s.stored + multiset(s.phase.details))
      else
        var restored := s.phase.details + s.details;
        var d := Excess(|restored|, DETAILED_LOG_BUFFER_LIMIT);
        next.(details := restored[d..], droppedLines := s.droppedLines + multiset(restored[..d]))
  }

  /** The merge-back loop after a failed aggregate write: buffer and given-up rows. */
  function MergeBack(rows: seq<Row>, batch: seq<Row>): (seq<Row>, seq<Row>)
    decreases |batch|
  {
    if |batch| == 0 then (rows, [])
    else
      var (merged, dropped) := MergeBack(rows, batch[..|batch| - 1]);
      var entry := batch[|batch| - 1];
      if IndexOf(merged, entry.key) < |merged| || |merged| < AGGREGATION_BUFFER_LIMIT then (Merged(merged, entry), dropped)
      else (merged, dropped + [entry])
  }

  function AddRows(table: map<Key, Counters>, rows: seq<Row>): map<Key, Counters>
    decreases |rows|
  {
    if |rows| == 0 then table
    else
      var before := AddRows(table, rows[..|rows| - 1]);
      var row := rows[|rows| - 1];
      before[row.key := At(before, row.key).Add(row.counters)]
  }

  function AggregatesStep(s: State, ok: bool): State {
    if !s.phase.WritingAggregates? then s
    else if ok then s.(phase := Idle, table := AddRows(s.table, s.phase.rows))
    else
      var (merged, dropped) := MergeBack(s.aggregates, s.phase.rows);
      s.(phase := Idle, aggregates := merged, dropped := s.dropped + dropped)
  }

  function Next(s: State, e: Event): State {
    match e
    case Process(line) => ProcessStep(s, line)
    case Flush => BeginFlush(s)
    case DetailsWritten(ok) => DetailsStep(s, ok)
    case AggregatesWritten(ok) => AggregatesStep(s, ok)
  }

  function Init(table: map<Key, Counters>): State {
    State([], [], Idle, table, multiset{}, [], multiset{}, [], multiset{})
  }

  function Run(table: map<Key, Counters>, events: seq<Event>): State
    decreases |events|
  {
    if |events| == 0 then Init(table) else Next(Run(table, events[..|events| - 1]), events[|events| - 1])
  }

  function InFlight(p: Phase): seq<Row> {
    if p.Idle? then [] else p.rows
  }

  function LinesInFlight(p: Phase): seq<Line> {
    if p.WritingDetails? then p.details else []
  }

  function Processed(lines: seq<Event>): seq<Row>
    decreases |lines|
  {
    if |lines| == 0 then []
    else
      var last := lines[|lines| - 1];
      Processed(lines[..|lines| - 1]) + if last.Process? then [RowOf(last.line)] else []
  }

  // ---------- Conservation ----------

  function Total(stored: Counters, inFlight: Counters, buffered: Counters, dropped: Counters): Counters {
    stored.Add(inFlight).Add(buffered).Add(dropped)
  }

  function TotalOf(s: State, k: Key): Counters {
    Total(At(s.table, k), SumOf(InFlight(s.phase), k), SumOf(s.aggregates, k), SumOf(s.dropped, k))
  }

  ghost predicate Conserves(s: State, table: map<Key, Counters>) {
    forall k :: TotalOf(s, k) == At(table, k).Add(SumOf(s.processed, k))
  }

  ghost predicate LinesConserved(s: State) {
    s.stored + multiset(LinesInFlight(s.phase)) + multiset(s.details) + s.droppedLines == s.processedLines
  }

  ghost predicate Bounded(s: State) {
    |s.aggregates| <= AGGREGATION_BUFFER_LIMIT && |s.details| <= DETAILED_LOG_BUFFER_LIMIT
  }

  /** Moving counters between stored, in-flight, buffered and dropped keeps the total. */
  lemma Moves(t: Counters, i: Counters, b: Counters, d: Counters, x: Counters, y: Counters)
    ensures Total(t, i, b.Add(x), d) == Total(t, i, b, d).Add(x)
    ensures Total(t, b, Zero, d) == Total(t, Zero, b, d)
    ensures b == x.Add(y) ==> Total(t, i, y, d.Add(x)) == Total(t, i, b, d)
    ensures Total(t.Add(i), Zero, b, d) == Total(t, i, b, d)
    ensures x.Add(y) == b.Add(i) ==> Total(t, Zero, x, d.Add(y)) == Total(t, i, b, d)
  {
  }

  lemma {:induction false} MergeBackSum(rows: seq<Row>, batch: seq<Row>, k: Key)
    ensures var (merged, dropped) := MergeBack(rows, batch);
            SumOf(merged, k).Add(SumOf(dropped, k)) == SumOf(rows, k).Add(SumOf(batch, k))
    decreases |batch|
  {
    hide SumOf, Merged, Counters.Add;
    if |batch| == 0 {
      assert batch == [];
    } else {
      var front, entry := batch[..|batch| - 1], batch[|batch| - 1];
      MergeBackSum(rows, front, k);
      var (merged, dropped) := MergeBack(rows, front);
      assert batch == front + [entry];
      SumSnoc(front, entry, k);
      MergedSum(merged, entry, k);
      SumSnoc(dropped, entry, k);
      AddLaws(SumOf(merged, k), SumOf(dropped, k), entry.counters);
      AddLaws(SumOf(rows, k), SumOf(front, k), entry.counters);
    }
  }

  lemma {:induction false} MergeBackBound(rows: seq<Row>, batch: seq<Row>)
    requires |rows| <= AGGREGATION_BUFFER_LIMIT && Distinct(rows)
    ensures |MergeBack(rows, batch).0| <= AGGREGATION_BUFFER_LIMIT && Distinct(MergeBack(rows, batch).0)
    decreases |batch|
  {
    if |batch| > 0 {
      MergeBackBound(rows, batch[..|batch| - 1]);
      MergedDistinct(MergeBack(rows, batch[..|batch| - 1]).0, batch[|batch| - 1]);
      hide Distinct;
    }
  }

  lemma {:induction false} AddRowsSum(table: map<Key, Counters>, rows: seq<Row>)
    ensures Upserted(table, AddRows(table, rows), rows)
    decreases |rows|
  {
    hide Upserted;
    if |rows| == 0 {
      UpsertNothing(table);
      assert rows == [];
    } else {
      var front := rows[..|rows| - 1];
      AddRowsSum(table, front);
      MergeStep(table, AddRows(table, front), front, rows[|rows| - 1]);
      assert rows == front + [rows[|rows| - 1]];
    }
  }

  lemma AddRowsAt(table: map<Key, Counters>, rows: seq<Row>, k: Key)
    ensures At(AddRows(table, rows), k) == At(table, k).Add(SumOf(rows, k))
  {
    AddRowsSum(table, rows);
    hide AddRows, SumOf, Counters.Add;
  }

  lemma BeginFlushConserves(s: State, k: Key)
    ensures TotalOf(BeginFlush(s), k) == TotalOf(s, k)
  {
    hide Total, Counters.Add;
    Moves(At(s.table, k), Zero, SumOf(s.aggregates, k), SumOf(s.dropped, k), Zero, Zero);
  }

  lemma TrimmedConserves(s: State, k: Key)
    ensures TotalOf(Trimmed(s), k) == TotalOf(s, k)
  {
    hide Total, Counters.Add, SumOf;
    var a := Excess(|s.aggregates|, AGGREGATION_BUFFER_LIMIT);
    assert s.aggregates == s.aggregates[..a] + s.aggregates[a..];
    SumAppend(s.aggregates[..a], s.aggregates[a..], k);
    SumAppend(s.dropped, s.aggregates[..a], k);
    Moves(At(s.table, k), SumOf(InFlight(s.phase), k), SumOf(s.aggregates, k), SumOf(s.dropped, k),
          SumOf(s.aggregates[..a], k), SumOf(s.aggregates[a..], k));
  }

  lemma BackpressureConserves(s: State, k: Key)
    ensures TotalOf(Backpressure(s), k) == TotalOf(s, k)
  {
    BeginFlushConserves(s, k);
    hide TotalOf, BeginFlush;
    TrimmedConserves(s, k);
    TrimmedConserves(BeginFlush(s), k);
    hide Trimmed;
  }

  lemma ProcessConserves(s: State, line: Line, k: Key)
    ensures var row := RowOf(line);
            TotalOf(ProcessStep(s, line), k) == if row.key == k then TotalOf(s, k).Add(row.counters) else TotalOf(s, k)
  {
    hide Total, Counters.Add, SumOf, Merged, CountersOf, Backpressure, At;
    var row := RowOf(line);
    BackpressureConserves(s.(aggregates := Merged(s.aggregates, row), details := s.details + [line],
                             processed := s.processed + [row], processedLines := s.processedLines + multiset{line}), k);
    MergedSum(s.aggregates, row, k);
    Moves(At(s.table, k), SumOf(InFlight(s.phase), k), SumOf(s.aggregates, k), SumOf(s.dropped, k), row.counters, Zero);
  }

  lemma NothingInFlight(k: Key)
    ensures SumOf(InFlight(Idle), k) == Zero
  {
  }

  lemma WriteConserves(s: State, k: Key)
    requires s.phase.WritingAggregates?
    ensures TotalOf(AggregatesStep(s, true), k) == TotalOf(s, k)
  {
    hide Total, Counters.Add, SumOf, AddRows, At, Zero, MergeBack;
    var rows := s.phase.rows;
    AddRowsAt(s.table, rows, k);
    NothingInFlight(k);
    Moves(At(s.table, k), SumOf(rows, k), SumOf(s.aggregates, k), SumOf(s.dropped, k), Zero, Zero);
  }

  lemma MergeBackConserves(s: State, k: Key)
    requires s.phase.WritingAggregates?
    ensures TotalOf(AggregatesStep(s, false), k) == TotalOf(s, k)
  {
    var rows := s.phase.rows;
    hide Total, Counters.Add, At;
    assert SumOf([], k) == Zero;
    hide SumOf;
    var (merged, dropped) := MergeBack(s.aggregates, rows);
    MergeBackSum(s.aggregates, rows, k);
    hide MergeBack;
    SumAppend(s.dropped, dropped, k);
    Moves(At(s.table, k), SumOf(rows, k), SumOf(s.aggregates, k), SumOf(s.dropped, k), SumOf(merged, k), SumOf(dropped, k));
  }

  lemma AggregatesConserve(s: State, ok: bool, k: Key)
    ensures TotalOf(AggregatesStep(s, ok), k) == TotalOf(s, k)
  {
    hide TotalOf;
    if s.phase.WritingAggregates? {
      WriteConserves(s, k);
      MergeBackConserves(s, k);
      hide AggregatesStep;
    }
  }

  lemma {:induction false} NextConserves(s: State, e: Event, table: map<Key, Counters>)
    requires Conserves(s, table)
    ensures Conserves(Next(s, e), table)
  {
    hide TotalOf, Counters.Add, SumOf, At, Merged, MergeBack, AddRows, CountersOf;
    forall k ensures TotalOf(Next(s, e), k) == At(table, k).Add(SumOf(Next(s, e).processed, k)) {
      match e
      case Process(line) =>
        ProcessConserves(s, line, k);
        SumSnoc(s.processed, RowOf(line), k);
        AddLaws(At(table, k), SumOf(s.processed, k), RowOf(line).counters);
      case Flush => BeginFlushConserves(s, k);
      case DetailsWritten(ok) => DetailsConserve(s, ok, k);
      case AggregatesWritten(ok) => AggregatesConserve(s, ok, k);
    }
  }

  lemma DetailsConserve(s: State, ok: bool, k: Key)
    ensures TotalOf(DetailsStep(s, ok), k) == TotalOf(s, k)
  {
  }

  lemma SplitLines(lines: seq<Line>, n: nat)
    requires n <= |lines|
    ensures multiset(lines) == multiset(lines[..n]) + multiset(lines[n..])
  {
    assert lines == lines[..n] + lines[n..];
  }

  lemma LineMoves(stored: multiset<Line>, flying: multiset<Line>, buffered: multiset<Line>, dropped: multiset<Line>,
                  x: multiset<Line>, y: multiset<Line>)
    ensures (stored + flying) + multiset{} + buffered + dropped == stored + flying + buffered + dropped
    ensures flying + buffered == x + y ==> stored + multiset{} + y + (dropped + x) == stored + flying + buffered + dropped
    ensures stored + flying + (buffered + x) + dropped == stored + flying + buffered + dropped + x
    ensures buffered == x + y ==> stored + flying + y + (dropped + x) == stored + flying + buffered + dropped
  {
    if flying + buffered == x + y {
      forall line ensures (stored + multiset{} + y + (dropped + x))[line] == (stored + flying + buffered + dropped)[line] {
        assert (flying + buffered)[line] == (x + y)[line];
      }
    }
  }

  lemma DetailsLines(s: State, ok: bool)
    requires LinesConserved(s)
    ensures LinesConserved(DetailsStep(s, ok))
  {
    if s.phase.WritingDetails? {
      var flying, buffered := multiset(s.phase.details), multiset(s.details);
      if ok {
        LineMoves(s.stored, flying, buffered, s.droppedLines, multiset{}, multiset{});
        assert multiset(LinesInFlight(DetailsStep(s, ok).phase)) == multiset{};
      } else {
        var restored := s.phase.details + s.details;
        var d := Excess(|restored|, DETAILED_LOG_BUFFER_LIMIT);
        SplitLines(restored, d);
        assert multiset(restored) == flying + buffered;
        LineMoves(s.stored, flying, buffered, s.droppedLines, multiset(restored[..d]), multiset(restored[d..]));
        assert multiset(LinesInFlight(DetailsStep(s, ok).phase)) == multiset{};
      }
    }
  }

  lemma TrimmedLines(s: State)
    requires LinesConserved(s)
    ensures LinesConserved(Trimmed(s))
  {
    var d := Excess(|s.details|, DETAILED_LOG_BUFFER_LIMIT);
    SplitLines(s.details, d);
    LineMoves(s.stored, multiset(LinesInFlight(s.phase)), multiset(s.details), s.droppedLines,
              multiset(s.details[..d]), multiset(s.details[d..]));
  }

  lemma FlushLines(s: State)
    requires LinesConserved(s)
    ensures LinesConserved(BeginFlush(s))
  {
  }

  lemma ProcessLines(s: State, line: Line)
    requires LinesConserved(s)
    ensures LinesConserved(ProcessStep(s, line))
  {
    hide Merged, CountersOf;
    var counted := s.(aggregates := Merged(s.aggregates, RowOf(line)), details := s.details + [line],
                      processed := s.processed + [RowOf(line)], processedLines := s.processedLines + multiset{line});
    assert multiset(counted.details) == multiset(s.details) + multiset{line};
    LineMoves(s.stored, multiset(LinesInFlight(s.phase)), multiset(s.details), s.droppedLines, multiset{line}, multiset{});
    assert LinesConserved(counted);
    FlushLines(counted);
    hide LinesConserved;
    TrimmedLines(counted);
    TrimmedLines(BeginFlush(counted));
    hide Trimmed, BeginFlush;
  }

  lemma NextLines(s: State, e: Event)
    requires LinesConserved(s)
    ensures LinesConserved(Next(s, e))
  {
    hide MergeBack, AddRows, ProcessStep, DetailsStep;
    match e
    case Process(line) => ProcessLines(s, line);
    case Flush => FlushLines(s);
    case DetailsWritten(ok) => DetailsLines(s, ok);
    case AggregatesWritten(_) =>
  }

  lemma NextBounded(s: State, e: Event)
    requires Bounded(s) && Distinct(s.aggregates)
    ensures Bounded(Next(s, e)) && Distinct(Next(s, e).aggregates)
  {
    match e
    case Process(line) => MergedDistinct(s.aggregates, RowOf(line));
    case Flush =>
    case DetailsWritten(_) =>
    case AggregatesWritten(_) =>
      if s.phase.WritingAggregates? { MergeBackBound(s.aggregates, s.phase.rows); }
  }

  lemma InitConserves(table: map<Key, Counters>)
    ensures Conserves(Init(table), table)
  {
    hide Counters.Add;
    forall k: Key ensures TotalOf(Init(table), k) == At(table, k).Add(SumOf([], k)) {
      AddLaws(At(table, k), Zero, Zero);
    }
  }

  /**
   * For every run of lines, flushes and write outcomes, and for every host-and-minute key and counter:
   * stored + in flight + buffered + dropped is what was stored before plus what the lines counted.
   * No line is lost or duplicated either, and the buffers stay bounded between steps.
   */
  lemma {:induction false} CountsAreConserved(table: map<Key, Counters>, events: seq<Event>)
    ensures var s := Run(table, events);
            Conserves(s, table) && LinesConserved(s) && Bounded(s) && Distinct(s.aggregates)
    decreases |events|
  {
    if |events| == 0 {
      InitConserves(table);
      hide Conserves;
    } else {
      var before := Run(table, events[..|events| - 1]);
      var e := events[|events| - 1];
      CountsAreConserved(table, events[..|events| - 1]);
      hide Conserves, LinesConserved, Bounded, Distinct;
      NextConserves(before, e, table);
      NextLines(before, e);
      NextBounded(before, e);
      hide Next;
    }
  }

  lemma {:induction false} ProcessedIsComplete(table: map<Key, Counters>, events: seq<Event>)
    ensures Run(table, events).processed == Processed(events)
    decreases |events|
  {
    if |events| > 0 {
      ProcessedIsComplete(table, events[..|events| - 1]);
      hide Merged, MergeBack, AddRows, CountersOf;
    }
  }

  // ---------- What is given up ----------

  /** The detailed lines waiting once a step has added or returned its own. */
  function Waiting(s: State, e: Event): seq<Line> {
    match e
    case Process(line) => s.details + [line]
    case DetailsWritten(ok) => if s.phase.WritingDetails? && !ok then s.phase.details + s.details else s.details
    case _ => s.details
  }

  /** The merge-back gives up a row only when the buffer is full. */
  lemma {:induction false} MergeBackSurplus(rows: seq<Row>, batch: seq<Row>)
    requires |rows| <= AGGREGATION_BUFFER_LIMIT && Distinct(rows)
    ensures MergeBack(rows, batch).1 != [] ==> |MergeBack(rows, batch).0| == AGGREGATION_BUFFER_LIMIT
    decreases |batch|
  {
    if |batch| > 0 {
      var front, entry := batch[..|batch| - 1], batch[|batch| - 1];
      MergeBackSurplus(rows, front);
      MergeBackBound(rows, front);
      MergedDistinct(MergeBack(rows, front).0, entry);
      hide Distinct;
    }
  }

  /** Rows are given up only from a buffer left full; of the waiting lines the newest stay, unless a flush takes all. */
  ghost predicate SurplusOnly(s: State, t: State, waiting: seq<Line>) {
    && (t.dropped != s.dropped ==> |t.aggregates| == 500)
    && (t.droppedLines != s.droppedLines ==> |t.details| == 1000)
    && (if t.phase.WritingDetails? && !s.phase.WritingDetails? then t.details == [] && t.phase.details == waiting
        else |t.details| <= |waiting| && t.details == waiting[|waiting| - |t.details|..]
             && (|t.details| < |waiting| ==> |t.details| == 1000))
  }

  lemma ProcessSurplus(s: State, line: Line)
    requires Bounded(s) && Distinct(s.aggregates)
    ensures SurplusOnly(s, ProcessStep(s, line), s.details + [line])
  {
    MergedDistinct(s.aggregates, RowOf(line));
    hide Merged, CountersOf, Distinct;
    assert s.dropped + [] == s.dropped && s.droppedLines + multiset([]) == s.droppedLines;
  }

  lemma SettledSurplus(s: State, e: Event)
    requires Bounded(s) && Distinct(s.aggregates) && !e.Process?
    ensures SurplusOnly(s, Next(s, e), Waiting(s, e))
  {
    hide Merged, AddRows, ProcessStep;
    if e.AggregatesWritten? && s.phase.WritingAggregates? { MergeBackSurplus(s.aggregates, s.phase.rows); }
    hide MergeBack, Distinct;
    assert s.dropped + [] == s.dropped && s.droppedLines + multiset([]) == s.droppedLines;
  }

  /**
   * Over every run a step gives up rows only from a buffer it leaves full, and of the waiting lines keeps the newest in
   * order unless it starts a flush with all of them.
   */
  lemma {:induction false} OnlySurplusIsGivenUp(table: map<Key, Counters>, events: seq<Event>, e: Event)
    ensures SurplusOnly(Run(table, events), Next(Run(table, events), e), Waiting(Run(table, events), e))
  {
    hide Run, Conserves, LinesConserved, Bounded, Distinct, SurplusOnly, ProcessStep, BeginFlush, DetailsStep, AggregatesStep;
    CountsAreConserved(table, events);
    if e.Process? { ProcessSurplus(Run(table, events), e.line); } else { SettledSurplus(Run(table, events), e); }
  }

  /** A line that fills a buffer starts a flush, unless one is in progress. */
  lemma FullBuffersFlush(s: State, line: Line)
    ensures var t := Next(s, Process(line));
            |t.details| >= 1000 || |t.aggregates| >= 500 ==> !s.phase.Idle? && t.phase == s.phase
  {
    hide Merged, CountersOf;
  }

  // ---------- The service ----------

  /** The buffers as the service updates them; each method is one step of the machine above. */
  class AnalyticsService {
    var aggregates: seq<Row>
    var details: seq<Line>
    var phase: Phase
    var table: map<Key, Counters>
    var stored: multiset<Line>
    ghost var processed: seq<Row>
    ghost var processedLines: multiset<Line>
    ghost var dropped: seq<Row>
    ghost var droppedLines: multiset<Line>

    ghost function View(): State
      reads this
    {
      State(aggregates, details, phase, table, stored, processed, processedLines, dropped, droppedLines)
    }

    constructor (t: map<Key, Counters>)
      ensures View() == Init(t)
    {
      aggregates, details, phase, table, stored := [], [], Idle, t, multiset{};
      processed, processedLines, dropped, droppedLines := [], multiset{}, [], multiset{};
    }

    method ProcessLine(line: Line)
      modifies this
      ensures View() == Next(old(View()), Process(line))
    {
      hide RowOf, Backpressure, Merged;
      AddToBuffer(RowOf(line));
      details := details + [line];
      processed, processedLines := processed + [RowOf(line)], processedLines + multiset{line};
      ApplyBackpressure();
    }

    /** Find or create the aggregate of the row's key, then add to it. */
    method AddToBuffer(row: Row)
      modifies this`aggregates
      ensures aggregates == Merged(old(aggregates), row)
    {
      hide HasKey, Counters.Add;
      ghost var before := aggregates;
      var i := IndexOf(aggregates, row.key);
      hide IndexOf;
      if i == |aggregates| {
        aggregates := aggregates + [Row(row.key, Zero)];
        AddLaws(row.counters, Zero, Zero);
      }
      aggregates := aggregates[i := Row(row.key, aggregates[i].counters.Add(row.counters))];
      if i == |before| {
        assert aggregates == before + [row];
      }
    }

    method ApplyBackpressure()
      modifies this
      ensures View() == Backpressure(old(View()))
    {
      hide Trimmed;
      var shouldFlush := false;
      if |details| >= DETAILED_LOG_BUFFER_LIMIT {
        shouldFlush := true;
      }
      if |aggregates| >= AGGREGATION_BUFFER_LIMIT {
        shouldFlush := true;
      }
      if shouldFlush {
        Flush();
      }
      DropOldest();
    }

    method DropOldest()
      modifies this`aggregates, this`dropped, this`details, this`droppedLines
      ensures View() == Trimmed(old(View()))
    {
      var detailsDropped := Excess(|details|, DETAILED_LOG_BUFFER_LIMIT);
      if detailsDropped > 0 {
        droppedLines := droppedLines + multiset(details[..detailsDropped]);
        details := details[detailsDropped..];
      }
      ghost var full, given := aggregates, dropped;
      ghost var n := 0;
      while |aggregates| > AGGREGATION_BUFFER_LIMIT
        invariant 0 <= n <= Excess(|full|, AGGREGATION_BUFFER_LIMIT)
        invariant aggregates == full[n..] && dropped == given + full[..n]
        invariant details == old(details)[detailsDropped..]
        invariant droppedLines == old(droppedLines) + multiset(old(details)[..detailsDropped])
        decreases |aggregates|
      {
        assert full[..n + 1] == full[..n] + [aggregates[0]];
        dropped := dropped + [aggregates[0]];
        aggregates := aggregates[1..];
        n := n + 1;
      }
      assert n == Excess(|full|, AGGREGATION_BUFFER_LIMIT);
    }

    /** The swap before the first write. */
    method Flush()
      modifies this
      ensures View() == BeginFlush(old(View()))
    {
      if !phase.Idle? {
        return;
      }
      phase := WritingDetails(details, aggregates);
      details, aggregates := [], [];
    }

    /** The detailed rows' transaction has committed or failed. */
    method DetailsSettled(ok: bool)
      modifies this
      ensures View() == Next(old(View()), DetailsWritten(ok))
    {
      if !phase.WritingDetails? {
        return;
      }
      if ok {
        stored := stored + multiset(phase.details);
      } else {
        var restored := phase.details + details;
        var surplus := Excess(|restored|, DETAILED_LOG_BUFFER_LIMIT);
        droppedLines := droppedLines + multiset(restored[..surplus]);
        details := restored[surplus..];
      }
      phase := WritingAggregates(phase.rows);
    }

    /** The aggregates' transaction has committed (by the chunked upsert) or failed (merge back). */
    method AggregatesSettled(ok: bool)
      modifies this
      ensures View() == Next(old(View()), AggregatesWritten(ok))
    {
      hide MergeBack, AddRows, Upserted;
      if !phase.WritingAggregates? {
        return;
      }
      var batch := phase.rows;
      phase := Idle;
      if ok {
        var after := UpsertAnalyticsRows(table, batch, 250);
        AddRowsSum(table, batch);
        SameTable(table, after, AddRows(table, batch), batch);
        table := after;
      } else {
        ReturnToBuffer(batch);
      }
    }

    method ReturnToBuffer(batch: seq<Row>)
      modifies this`aggregates, this`dropped
      ensures aggregates == MergeBack(old(aggregates), batch).0
      ensures dropped == old(dropped) + MergeBack(old(aggregates), batch).1
    {
      hide HasKey, Counters.Add;
      ghost var rows, given := aggregates, dropped;
      for i := 0 to |batch|
        invariant aggregates == MergeBack(rows, batch[..i]).0 && dropped == given + MergeBack(rows, batch[..i]).1
      {
        var entry := batch[i];
        assert batch[..i + 1][..i] == batch[..i];
        var at := IndexOf(aggregates, entry.key);
        hide IndexOf;
        if at < |aggregates| {
          aggregates := aggregates[at := Row(entry.key, aggregates[at].counters.Add(entry.counters))];
        } else if |aggregates| < AGGREGATION_BUFFER_LIMIT {
          aggregates := aggregates + [entry];
        } else {
          dropped := dropped + [entry];
        }
      }
      assert batch[..|batch|] == batch;
    }
  }

  /** An upsert determines the table. */
  lemma SameTable(table: map<Key, Counters>, a: map<Key, Counters>, b: map<Key, Counters>, rows: seq<Row>)
    requires Upserted(table, a, rows) && Upserted(table, b, rows)
    ensures a == b
  {
    hide Counters.Add, SumOf, HasKey;
    forall k | k in a ensures k in b && a[k] == b[k] {
      assert At(a, k) == At(b, k);
    }
  }
}
