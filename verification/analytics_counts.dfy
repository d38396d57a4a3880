/** What the stored counters mean: how many lines of a host, a minute and a status class there were. */
module AnalyticsCounts {
  import opened AnalyticsUpsert
  import opened AnalyticsBuffers

  /** The line belongs to this host and to the minute that starts here. */
  predicate InMinute(line: Line, host: nat, minute: int) {
    line.host == host && minute <= line.time < minute + 60_000
  }

  datatype Statuses = Any | Between(lowest: int, below: int) | From(lowest: int)

  predicate InClass(status: int, class_: Statuses) {
    match class_
    case Any => true
    case Between(lowest, below) => lowest <= status < below
    case From(lowest) => lowest <= status
  }

  /** The lines among the events of this host and minute whose status is in the class. */
  function CountLines(events: seq<Event>, host: nat, minute: int, class_: Statuses): nat
    decreases |events|
  {
    if |events| == 0 then 0
    else
      var last := events[|events| - 1];
      CountLines(events[..|events| - 1], host, minute, class_)
      + if last.Process? && InMinute(last.line, host, minute) && InClass(last.line.status, class_) then 1 else 0
  }

  function SumBytes(events: seq<Event>, host: nat, minute: int): int
    decreases |events|
  {
    if |events| == 0 then 0
    else
      var last := events[|events| - 1];
      SumBytes(events[..|events| - 1], host, minute)
      + if last.Process? && InMinute(last.line, host, minute) then last.line.bytes else 0
  }

  /** What counters have beyond others. */
  function Beyond(c: Counters, initial: Counters): Counters {
    Counters(c.count - initial.count, c.bytes - initial.bytes, c.s2xx - initial.s2xx, c.s3xx - initial.s3xx,
             c.s4xx - initial.s4xx, c.s5xx - initial.s5xx)
  }

  /** Counters which say exactly what lines of this host and minute the events brought. */
  ghost predicate Tells(c: Counters, events: seq<Event>, host: nat, minute: int) {
    && c.count == CountLines(events, host, minute, Any)
    && c.bytes == SumBytes(events, host, minute)
    && c.s2xx == CountLines(events, host, minute, Between(200, 300))
    && c.s3xx == CountLines(events, host, minute, Between(300, 400))
    && c.s4xx == CountLines(events, host, minute, Between(400, 500))
    && c.s5xx == CountLines(events, host, minute, From(500))
  }

  /** A line counts under its own host and minute, as the classes say. */
  lemma LineTells(line: Line, host: nat, minute: int)
    requires minute % 60_000 == 0
    ensures RowOf(line).key == (host, minute) <==> InMinute(line, host, minute)
    ensures Tells(if InMinute(line, host, minute) then RowOf(line).counters else Zero, [Process(line)], host, minute)
  {
    assert [Process(line)][..0] == [];
  }

  lemma CountSnoc(events: seq<Event>, e: Event, host: nat, minute: int, class_: Statuses)
    ensures CountLines(events + [e], host, minute, class_)
         == CountLines(events, host, minute, class_) + CountLines([e], host, minute, class_)
  {
    assert (events + [e])[..|events|] == events && [e][..0] == [];
    assert CountLines([], host, minute, class_) == 0;
  }

  lemma BytesSnoc(events: seq<Event>, e: Event, host: nat, minute: int)
    ensures SumBytes(events + [e], host, minute) == SumBytes(events, host, minute) + SumBytes([e], host, minute)
  {
    assert (events + [e])[..|events|] == events && [e][..0] == [];
  }

  lemma TellsSnoc(c: Counters, d: Counters, events: seq<Event>, e: Event, host: nat, minute: int)
    requires Tells(c, events, host, minute) && Tells(d, [e], host, minute)
    ensures Tells(c.Add(d), events + [e], host, minute)
  {
    CountSnoc(events, e, host, minute, Any);
    CountSnoc(events, e, host, minute, Between(200, 300));
    CountSnoc(events, e, host, minute, Between(300, 400));
    CountSnoc(events, e, host, minute, Between(400, 500));
    CountSnoc(events, e, host, minute, From(500));
    BytesSnoc(events, e, host, minute);
    hide CountLines, SumBytes;
  }

  lemma OtherEventTells(e: Event, host: nat, minute: int)
    requires !e.Process?
    ensures Tells(Zero, [e], host, minute)
  {
    assert [e][..0] == [];
  }

  lemma ProcessedSnoc(front: seq<Event>, e: Event)
    ensures Processed(front + [e]) == if e.Process? then Processed(front) + [RowOf(e.line)] else Processed(front)
  {
    assert (front + [e])[..|front|] == front;
  }

  /** One more event adds what it tells. */
  lemma StepTells(front: seq<Event>, e: Event, host: nat, minute: int)
    requires minute % 60_000 == 0 && Tells(SumOf(Processed(front), (host, minute)), front, host, minute)
    ensures Tells(SumOf(Processed(front + [e]), (host, minute)), front + [e], host, minute)
  {
    ProcessedSnoc(front, e);
    var k := (host, minute);
    var before := SumOf(Processed(front), k);
    hide Tells, CountersOf, Processed, RowOf, SumOf, Counters.Add;
    AddLaws(before, Zero, Zero);
    if e.Process? {
      LineTells(e.line, host, minute);
      SumSnoc(Processed(front), RowOf(e.line), k);
      TellsSnoc(before, if InMinute(e.line, host, minute) then RowOf(e.line).counters else Zero, front, e, host, minute);
    } else {
      OtherEventTells(e, host, minute);
      TellsSnoc(before, Zero, front, e, host, minute);
    }
  }

  lemma {:induction false} ProcessedTells(events: seq<Event>, host: nat, minute: int)
    requires minute % 60_000 == 0
    ensures Tells(SumOf(Processed(events), (host, minute)), events, host, minute)
    decreases |events|
  {
    if |events| > 0 {
      var front, e := events[..|events| - 1], events[|events| - 1];
      ProcessedTells(front, host, minute);
      assert events == front + [e];
      StepTells(front, e, host, minute);
    }
  }

  /**
   * Over every run of lines, flushes and write outcomes: for every host and minute, what is stored, in flight, buffered or
   * given up beyond the initial table counts exactly the processed lines of that host and minute, by status class.
   */
  lemma {:induction false} CountersTellTheLines(table: map<Key, Counters>, events: seq<Event>, host: nat, minute: int)
    requires minute % 60_000 == 0
    ensures Tells(Beyond(TotalOf(Run(table, events), (host, minute)), At(table, (host, minute))), events, host, minute)
  {
    hide Run, Processed, SumOf, Tells, TotalOf, At, LinesConserved, Bounded, Distinct;
    CountsAreConserved(table, events);
    ProcessedIsComplete(table, events);
    ProcessedTells(events, host, minute);
    assert TotalOf(Run(table, events), (host, minute)) == At(table, (host, minute)).Add(SumOf(Processed(events), (host, minute)));
  }

  // ---------- Keys ----------

  ghost predicate OnMinutes(rows: seq<Row>) {
    forall i | 0 <= i < |rows| :: rows[i].key.1 % 60_000 == 0
  }

  ghost predicate KeysOnMinutes(s: State, table: map<Key, Counters>) {
    && OnMinutes(s.aggregates) && OnMinutes(InFlight(s.phase)) && OnMinutes(s.dropped)
    && forall k | k in s.table :: k in table || k.1 % 60_000 == 0
  }

  lemma MergedOnMinutes(rows: seq<Row>, row: Row)
    requires OnMinutes(rows) && row.key.1 % 60_000 == 0
    ensures OnMinutes(Merged(rows, row))
  {
  }

  lemma {:induction false} MergeBackOnMinutes(rows: seq<Row>, batch: seq<Row>)
    requires OnMinutes(rows) && OnMinutes(batch)
    ensures OnMinutes(MergeBack(rows, batch).0) && OnMinutes(MergeBack(rows, batch).1)
    decreases |batch|
  {
    if |batch| > 0 {
      var front := batch[..|batch| - 1];
      MergeBackOnMinutes(rows, front);
      MergedOnMinutes(MergeBack(rows, front).0, batch[|batch| - 1]);
      hide Merged, IndexOf;
    }
  }

  lemma {:induction false} AddRowsKeys(table: map<Key, Counters>, rows: seq<Row>)
    requires OnMinutes(rows)
    ensures forall k | k in AddRows(table, rows) :: k in table || k.1 % 60_000 == 0
    decreases |rows|
  {
    if |rows| > 0 { AddRowsKeys(table, rows[..|rows| - 1]); }
  }

  lemma SlicesOnMinutes(rows: seq<Row>, n: nat, more: seq<Row>)
    requires n <= |rows| && OnMinutes(rows) && OnMinutes(more)
    ensures OnMinutes(rows[n..]) && OnMinutes(rows[..n]) && OnMinutes(more + rows[..n])
  {
  }

  lemma TrimmedOnMinutes(s: State, table: map<Key, Counters>)
    requires KeysOnMinutes(s, table)
    ensures KeysOnMinutes(Trimmed(s), table)
  {
    SlicesOnMinutes(s.aggregates, Excess(|s.aggregates|, AGGREGATION_BUFFER_LIMIT), s.dropped);
    hide OnMinutes;
  }

  lemma FlushOnMinutes(s: State, table: map<Key, Counters>)
    requires KeysOnMinutes(s, table)
    ensures KeysOnMinutes(BeginFlush(s), table)
  {
    assert OnMinutes([]);
    hide OnMinutes;
  }

  lemma ProcessOnMinutes(s: State, line: Line, table: map<Key, Counters>)
    requires KeysOnMinutes(s, table)
    ensures KeysOnMinutes(ProcessStep(s, line), table)
  {
    MergedOnMinutes(s.aggregates, RowOf(line));
    hide OnMinutes, Merged, RowOf;
    var counted := s.(aggregates := Merged(s.aggregates, RowOf(line)), details := s.details + [line],
                      processed := s.processed + [RowOf(line)], processedLines := s.processedLines + multiset{line});
    assert KeysOnMinutes(counted, table);
    hide KeysOnMinutes, Trimmed, BeginFlush;
    FlushOnMinutes(counted, table);
    TrimmedOnMinutes(counted, table);
    TrimmedOnMinutes(BeginFlush(counted), table);
  }

  lemma SettledOnMinutes(s: State, e: Event, table: map<Key, Counters>)
    requires KeysOnMinutes(s, table) && (e.DetailsWritten? || e.AggregatesWritten?)
    ensures KeysOnMinutes(Next(s, e), table)
  {
    hide Merged, MergeBack, AddRows;
    if e.AggregatesWritten? && s.phase.WritingAggregates? {
      MergeBackOnMinutes(s.aggregates, s.phase.rows);
      AddRowsKeys(s.table, s.phase.rows);
      var given := MergeBack(s.aggregates, s.phase.rows).1;
      SlicesOnMinutes(given, |given|, s.dropped);
      assert given[..|given|] == given && OnMinutes([]);
      hide OnMinutes;
    } else {
      hide OnMinutes;
    }
  }

  lemma NextOnMinutes(s: State, e: Event, table: map<Key, Counters>)
    requires KeysOnMinutes(s, table)
    ensures KeysOnMinutes(Next(s, e), table)
  {
    hide KeysOnMinutes, ProcessStep, BeginFlush, DetailsStep, AggregatesStep;
    match e
    case Process(line) => ProcessOnMinutes(s, line, table);
    case Flush => FlushOnMinutes(s, table);
    case DetailsWritten(_) => SettledOnMinutes(s, e, table);
    case AggregatesWritten(_) => SettledOnMinutes(s, e, table);
  }

  /** Every key that was not in the initial table is the start of a minute. */
  lemma {:induction false} KeysAreMinutes(table: map<Key, Counters>, events: seq<Event>)
    ensures KeysOnMinutes(Run(table, events), table)
    decreases |events|
  {
    if |events| > 0 {
      KeysAreMinutes(table, events[..|events| - 1]);
      hide KeysOnMinutes, Next;
      NextOnMinutes(Run(table, events[..|events| - 1]), events[|events| - 1], table);
    }
  }
}
