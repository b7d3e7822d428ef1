/**
 From events to the server: TelemetryUseCase hands its points to InfluxDBWriter (internal/usecase/telemetry.go:73-93,
 internal/repository/influxdb.go:92-183), between whose writes flushes, ticks and closing may come.
 */
module Points {
  import opened Domain
  import opened Telemetry
  import Influx = InfluxBuffer

  /** The writer's share of an action. */
  function WriteOf(a: Action): seq<Influx.Op> {
    if a.Write? then [Influx.Write(PointOf(a.e), a.ok)] else []
  }

  /** The writes that the use case makes in a run, up to a crash. */
  function WritesOf(run: seq<Action>): seq<Influx.Op> {
    if run == [] then [] else
      var init, a := run[..|run| - 1], run[|run| - 1];
      if Healthy(init) then WritesOf(init) + WriteOf(a) else WritesOf(init)
  }

  /** The updates that a run writes, up to a crash. */
  function UpdatesOf(run: seq<Action>): seq<TelemetryEvent> {
    if run == [] then [] else
      var init, a := run[..|run| - 1], run[|run| - 1];
      if Healthy(init) && a.Write? then UpdatesOf(init) + [a.e] else UpdatesOf(init)
  }

  function PointsOf(events: seq<TelemetryEvent>): seq<Point> {
    if events == [] then [] else PointsOf(events[..|events| - 1]) + [PointOf(events[|events| - 1])]
  }

  /** The writes among the writer's operations. */
  function Writes(ops: seq<Influx.Op>): seq<Influx.Op> {
    if ops == [] then [] else (if ops[0].Write? then [ops[0]] else []) + Writes(ops[1..])
  }

  lemma {:induction false} PointsAre(events: seq<TelemetryEvent>)
    ensures |PointsOf(events)| == |events|
    ensures forall i | 0 <= i < |events| :: IsPointOf(PointsOf(events)[i], events[i])
  {
    if events != [] {
      PointsAre(events[..|events| - 1]);
      PointAndMessage(events[|events| - 1]);
    }
  }

  lemma PointsAppend(events: seq<TelemetryEvent>, e: TelemetryEvent)
    ensures PointsOf(events + [e]) == PointsOf(events) + [PointOf(e)]
  {
    assert (events + [e])[..|events|] == events;
  }

  /** What the use case has handed over after any run. */
  lemma {:induction false} HandedOver(run: seq<Action>)
    ensures Do(INITIAL, run).points == PointsOf(UpdatesOf(run))
  {
    if run != [] {
      var init, a := run[..|run| - 1], run[|run| - 1];
      HandedOver(init);
      CrashedIffPanicked(init);
      if Healthy(init) && a.Write? {
        PointsAppend(UpdatesOf(init), a.e);
      }
    }
  }

  lemma {:induction false} WrittenJoin(a: seq<Influx.Op>, b: seq<Influx.Op>)
    ensures Influx.Written(a + b) == Influx.Written(a) + Influx.Written(b)
  {
    if a == [] {
      assert a + b == b;
    } else {
      WrittenJoin(a[1..], b);
      assert (a + b)[1..] == a[1..] + b;
    }
  }

  lemma {:induction false} WrittenOfWrites(run: seq<Action>)
    ensures Influx.Written(WritesOf(run)) == PointsOf(UpdatesOf(run))
  {
    if run != [] {
      var init, a := run[..|run| - 1], run[|run| - 1];
      WrittenOfWrites(init);
      if Healthy(init) && a.Write? {
        WrittenJoin(WritesOf(init), WriteOf(a));
        PointsAppend(UpdatesOf(init), a.e);
        WrittenOne(WriteOf(a));
      } else {
        assert WritesOf(init) + [] == WritesOf(init);
      }
    }
  }

  lemma WrittenOne(ops: seq<Influx.Op>)
    requires |ops| == 1
    ensures Influx.Written(ops) == Influx.PointOf(ops[0])
  {
    assert ops[1..] == [];
  }

  lemma {:induction false} OnlyWritesCount(ops: seq<Influx.Op>)
    ensures Influx.Written(Writes(ops)) == Influx.Written(ops)
  {
    if ops != [] {
      OnlyWritesCount(ops[1..]);
      var first, rest := [ops[0]], Writes(ops[1..]);
      if ops[0].Write? {
        assert Writes(ops) == first + rest;
        WrittenJoin(first, rest);
        WrittenOne(first);
      } else {
        assert Writes(ops) == rest;
      }
    }
  }

  /**
   After any run of the use case, with any outcomes, and any flushes, ticks and closing between its writes, what
   the server holds followed by what is buffered is the points of the updates written, in order, each once.
   */
  lemma EveryUpdateReachesTheWriter(batchSize: int, run: seq<Action>, ops: seq<Influx.Op>)
    requires Writes(ops) == WritesOf(run)
    ensures var w := Influx.Run(Influx.New(batchSize), ops);
            && w.persisted + w.buffer == PointsOf(UpdatesOf(run)) == Do(INITIAL, run).points
            && |w.persisted + w.buffer| == |UpdatesOf(run)|
            && forall i | 0 <= i < |UpdatesOf(run)| :: IsPointOf((w.persisted + w.buffer)[i], UpdatesOf(run)[i])
  {
    PointsAre(UpdatesOf(run));
    Influx.NothingLostOrRepeated(batchSize, ops);
    OnlyWritesCount(ops);
    WrittenOfWrites(run);
    HandedOver(run);
  }
}
