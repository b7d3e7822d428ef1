/**
 The batching writer of internal/repository/influxdb.go: one mutex-protected buffer flushed by
 WritePoint, Flush, the ticker loop and Close. A write to the server takes a whole batch or nothing.
 The steps of a run are the mutex-protected bodies, so a run is any interleaving of the callers.
 */
module InfluxBuffer {
  import opened Domain

  // ------------------------------------------------------------- specification

  /**
   buffer is what w.buffer holds. accepted, persisted, batches and outcomes are history: the points
   handed to WritePoint, those in the server, the batches it took and how each attempt ended.
   */
  datatype Writer = Writer(
    batchSize: nat,
    buffer: seq<Point>,
    accepted: seq<Point>,
    persisted: seq<Point>,
    batches: seq<seq<Point>>,
    outcomes: seq<bool>,
    done: bool,        // w.done is closed
    loopAlive: bool,   // the flushLoop goroutine has not returned
    closed: bool)      // Close has made its final flush

  function New(batchSize: int): (w: Writer)
    ensures w.batchSize > 0 && (batchSize > 0 ==> w.batchSize == batchSize)
    ensures w.buffer == w.persisted == w.accepted == [] && !w.done && w.loopAlive
  {
    Writer(if batchSize <= 0 then 5000 else batchSize, [], [], [], [], [], false, true, false)
  }

  /** flushLocked: an empty buffer makes no attempt; a failed attempt keeps every point. */
  function FlushLocked(w: Writer, ok: bool): Writer {
    if w.buffer == [] then w
    else if ok then
      w.(buffer := [], persisted := w.persisted + w.buffer, batches := w.batches + [w.buffer],
         outcomes := w.outcomes + [true])
    else w.(outcomes := w.outcomes + [false])
  }

  function Appended(w: Writer, p: Point): Writer {
    w.(buffer := w.buffer + [p], accepted := w.accepted + [p])
  }

  function WritePoint(w: Writer, p: Point, ok: bool): Writer {
    var w' := Appended(w, p);
    if |w'.buffer| >= w.batchSize then FlushLocked(w', ok) else w'
  }

  /** Whether WritePoint returns an error. */
  predicate WriteFails(w: Writer, ok: bool) {
    |w.buffer| + 1 >= w.batchSize && !ok
  }

  datatype Op =
    | Write(p: Point, ok: bool)
    | Flush(ok: bool)
    | Tick(ok: bool)
    | CloseDone              // close(w.done)
    | LoopReturns            // flushLoop sees w.done; Close's wg.Wait returns
    | FinalFlush(ok: bool)

  predicate Enabled(w: Writer, op: Op) {
    match op
    case Write(_, _) => true
    case Flush(_) => true
    case Tick(_) => w.loopAlive
    case CloseDone => !w.done
    case LoopReturns => w.done && w.loopAlive
    case FinalFlush(_) => w.done && !w.loopAlive && !w.closed
  }

  function Step(w: Writer, op: Op): Writer {
    match op
    case Write(p, ok) => WritePoint(w, p, ok)
    case Flush(ok) => FlushLocked(w, ok)
    case Tick(ok) => FlushLocked(w, ok)
    case CloseDone => w.(done := true)
    case LoopReturns => w.(loopAlive := false)
    case FinalFlush(ok) => FlushLocked(w, ok).(closed := true)
  }

  ghost predicate IsRun(w: Writer, ops: seq<Op>)
    decreases ops
  {
    ops == [] || (Enabled(w, ops[0]) && IsRun(Step(w, ops[0]), ops[1..]))
  }

  function Run(w: Writer, ops: seq<Op>): Writer
    decreases ops
  {
    if ops == [] then w else Run(Step(w, ops[0]), ops[1..])
  }

  // ------------------------------------------------------------- reference

  function PointOf(op: Op): seq<Point> {
    if op.Write? then [op.p] else []
  }

  /** The points of a run's writes, in order. */
  function Written(ops: seq<Op>): seq<Point> {
    if ops == [] then [] else PointOf(ops[0]) + Written(ops[1..])
  }

  function Concat(batches: seq<seq<Point>>): seq<Point> {
    if batches == [] then [] else Concat(batches[..|batches| - 1]) + batches[|batches| - 1]
  }

  /** Failed attempts since the last successful one. */
  function Failures(outcomes: seq<bool>): nat {
    if outcomes == [] || outcomes[|outcomes| - 1] then 0 else 1 + Failures(outcomes[..|outcomes| - 1])
  }

  ghost predicate Inv(w: Writer) {
    && w.batchSize > 0
    && w.persisted + w.buffer == w.accepted
    && Concat(w.batches) == w.persisted
    && |w.buffer| < w.batchSize + Failures(w.outcomes)
  }

  // ------------------------------------------------------------- every run

  lemma FlushKeeps(w: Writer, ok: bool)
    requires w.persisted + w.buffer == w.accepted && Concat(w.batches) == w.persisted
    ensures var w' := FlushLocked(w, ok);
            && w'.persisted + w'.buffer == w'.accepted == w.accepted
            && Concat(w'.batches) == w'.persisted
            && (w.buffer != [] && ok ==> w'.buffer == [] && Failures(w'.outcomes) == 0)
            && (w.buffer != [] && !ok ==> w'.buffer == w.buffer && Failures(w'.outcomes) == Failures(w.outcomes) + 1)
  {
    assert (w.batches + [w.buffer])[..|w.batches|] == w.batches;
    assert (w.outcomes + [false])[..|w.outcomes|] == w.outcomes;
  }

  lemma FlushKeepsInv(w: Writer, ok: bool)
    requires Inv(w)
    ensures Inv(FlushLocked(w, ok))
  {
    FlushKeeps(w, ok);
  }

  lemma WriteKeepsInv(w: Writer, p: Point, ok: bool)
    requires Inv(w)
    ensures Inv(WritePoint(w, p, ok))
  {
    var w' := Appended(w, p);
    assert w'.persisted + w'.buffer == w'.accepted;
    FlushKeeps(w', ok);
  }

  lemma StepKeepsInv(w: Writer, op: Op)
    requires Inv(w)
    ensures Inv(Step(w, op))
  {
    match op
    case Write(p, ok) => WriteKeepsInv(w, p, ok);
    case Flush(ok) => FlushKeepsInv(w, ok);
    case Tick(ok) => FlushKeepsInv(w, ok);
    case FinalFlush(ok) => FlushKeepsInv(w, ok);
    case CloseDone => assert Inv(w.(done := true));
    case LoopReturns => assert Inv(w.(loopAlive := false));
  }

  lemma StepAccepts(w: Writer, op: Op)
    ensures Step(w, op).accepted == w.accepted + PointOf(op)
  {
    assert w.accepted + [] == w.accepted;
  }

  /**
   Conservation: after any run, what the server holds followed by what is buffered is exactly what was
   written, in order, whatever failed; and fewer points than BatchSize plus the failures since the last
   success are buffered.
   */
  lemma {:induction false} NothingLostOrRepeated(batchSize: int, ops: seq<Op>)
    ensures var w := Run(New(batchSize), ops);
            && w.persisted + w.buffer == Written(ops)
            && Concat(w.batches) == w.persisted
            && |w.buffer| < w.batchSize + Failures(w.outcomes)
  {
    RunFrom(New(batchSize), ops);
    assert [] + Written(ops) == Written(ops);
  }

  lemma {:induction false} RunFrom(w: Writer, ops: seq<Op>)
    requires Inv(w)
    ensures Inv(Run(w, ops)) && Run(w, ops).accepted == w.accepted + Written(ops)
    decreases ops
  {
    if ops != [] {
      StepKeepsInv(w, ops[0]);
      StepAccepts(w, ops[0]);
      var w' := Step(w, ops[0]);
      RunFrom(w', ops[1..]);
      JoinSeq(w.accepted, PointOf(ops[0]), Written(ops[1..]), w'.accepted);
    }
  }

  lemma JoinSeq(before: seq<Point>, p: seq<Point>, rest: seq<Point>, joined: seq<Point>)
    requires joined == before + p
    ensures joined + rest == before + (p + rest)
  {
  }

  /** Every batch the server takes has at most BatchSize points plus one for each failure since the last success. */
  lemma BatchBound(batchSize: int, ops: seq<Op>, op: Op)
    ensures var w := Run(New(batchSize), ops); var w' := Step(w, op);
            && (|w'.batches| <= |w.batches| || w'.batches == w.batches + [w'.batches[|w.batches|]])
            && (w.batches != w'.batches ==>
                  && |w'.batches| == |w.batches| + 1
                  && 0 < |w'.batches[|w.batches|]| <= w.batchSize + Failures(w.outcomes))
  {
    RunFrom(New(batchSize), ops);
  }

  /** A WritePoint that returns no error leaves fewer than BatchSize points; one that does keeps its point buffered. */
  lemma WriteResult(batchSize: int, ops: seq<Op>, p: Point, ok: bool)
    ensures var w := Run(New(batchSize), ops); var w' := WritePoint(w, p, ok);
            && (!WriteFails(w, ok) ==> |w'.buffer| < w'.batchSize)
            && (WriteFails(w, ok) ==> w'.buffer == w.buffer + [p] && w'.persisted == w.persisted)
  {
    RunFrom(New(batchSize), ops);
  }

  lemma {:induction false} RunOneMore(w: Writer, ops: seq<Op>, op: Op)
    ensures Run(w, ops + [op]) == Step(Run(w, ops), op)
    decreases ops
  {
    if ops == [] {
      assert ops + [op] == [op] && [op][1..] == [];
      assert Run(w, [op]) == Run(Step(w, op), []);
    } else {
      RunOneMore(Step(w, ops[0]), ops[1..], op);
      assert (ops + [op])[0] == ops[0] && (ops + [op])[1..] == ops[1..] + [op];
    }
  }

  /**
   A flush or a tick that the server takes leaves everything written so far there, and nothing buffered; one that
   fails changes neither.
   */
  lemma FlushesEverything(batchSize: int, ops: seq<Op>, op: Op)
    requires op.Flush? || op.Tick?
    ensures var w, w' := Run(New(batchSize), ops), Run(New(batchSize), ops + [op]);
            if op.ok then w'.persisted == Written(ops) && w'.buffer == []
            else w'.persisted == w.persisted && w'.buffer == w.buffer
  {
    NothingLostOrRepeated(batchSize, ops);
    RunOneMore(New(batchSize), ops, op);
    var w := Run(New(batchSize), ops);
    assert w.buffer == [] ==> w.persisted + w.buffer == w.persisted;
  }

  /** A write that fills the batch sends the whole buffer, one that does not only adds its point. */
  lemma WriteFlushesWhenFull(w: Writer, p: Point, ok: bool)
    ensures var w' := Step(w, Write(p, ok));
            if |w.buffer| + 1 < w.batchSize || !ok then w'.buffer == w.buffer + [p] && w'.persisted == w.persisted
            else w'.buffer == [] && w'.persisted == w.persisted + w.buffer + [p]
    ensures var w' := Step(w, Write(p, ok));
            w'.outcomes == if |w.buffer| + 1 < w.batchSize then w.outcomes else w.outcomes + [ok]
    ensures WriteFails(w, ok) <==> |w.buffer| + 1 >= w.batchSize && !ok
  {
    assert w.persisted + (w.buffer + [p]) == w.persisted + w.buffer + [p];
  }

  /** Close goes through once, whatever is buffered, and nothing flushes after it. */
  lemma CloseGoesThrough(w: Writer, ok: bool)
    requires !w.done && w.loopAlive && !w.closed
    ensures IsRun(w, [CloseDone, LoopReturns, FinalFlush(ok)])
  {
    var ops := [CloseDone, LoopReturns, FinalFlush(ok)];
    var w1 := Step(w, CloseDone);
    var w2 := Step(w1, LoopReturns);
    assert IsRun(Step(w2, FinalFlush(ok)), []);
    assert [FinalFlush(ok)][1..] == [] && IsRun(w2, [FinalFlush(ok)]);
    assert ops[1..][1..] == [FinalFlush(ok)] && IsRun(w1, ops[1..]);
  }

  // ------------------------------------------------------------- closing

  /**
   When Close makes its final flush, the loop has returned for good, and everything written so far is
   in the server exactly when the buffer was empty or that flush succeeded.
   */
  lemma CloseCompleteIff(batchSize: int, ops: seq<Op>, ok: bool)
    requires IsRun(New(batchSize), ops) && Enabled(Run(New(batchSize), ops), FinalFlush(ok))
    ensures var w := Run(New(batchSize), ops); var w' := Step(w, FinalFlush(ok));
            && (w'.persisted == Written(ops) <==> w.buffer == [] || ok)
            && forall b :: !Enabled(w', Tick(b)) && !Enabled(w', FinalFlush(b))
  {
    NothingLostOrRepeated(batchSize, ops);
    var w := Run(New(batchSize), ops);
    var w' := Step(w, FinalFlush(ok));
    if w.buffer != [] && !ok {
      assert |w'.persisted| < |Written(ops)|;
    } else if w.buffer == [] {
      assert w.persisted + [] == w.persisted;
    }
  }

  lemma IdleStep(w: Writer, op: Op)
    requires w.buffer == [] && !op.Write?
    ensures Step(w, op).persisted == w.persisted && Step(w, op).buffer == []
  {
  }

  /** Without further writes, everything stays in the server, and no step can flush anything. */
  lemma {:induction false} CompleteStays(w: Writer, ops: seq<Op>)
    requires w.buffer == [] && Written(ops) == []
    ensures Run(w, ops).persisted == w.persisted && Run(w, ops).buffer == []
    decreases ops
  {
    if ops != [] {
      assert PointOf(ops[0]) == [] && Written(ops[1..]) == [];
      IdleStep(w, ops[0]);
      CompleteStays(Step(w, ops[0]), ops[1..]);
    }
  }

  // ------------------------------------------------------------- the writer itself

  /** The writer over a reused backing array: `w.buffer` is data[..len], and `w.buffer[:0]` sets len to 0. */
  class InfluxDBWriter {
    const batchSize: nat
    var data: array<Point>
    var len: nat
    var done: bool
    var loopAlive: bool
    var closed: bool
    ghost var accepted: seq<Point>
    ghost var persisted: seq<Point>
    ghost var batches: seq<seq<Point>>
    ghost var outcomes: seq<bool>

    ghost predicate Valid()
      reads this
    {
      len <= data.Length && batchSize > 0
    }

    ghost function Abs(): Writer
      requires Valid()
      reads this, data
    {
      Writer(batchSize, data[..len], accepted, persisted, batches, outcomes, done, loopAlive, closed)
    }

    constructor (batchSize: int)
      ensures Valid() && Abs() == New(batchSize) && fresh(data)
      ensures this.batchSize == if batchSize <= 0 then 5000 else batchSize
      ensures len == 0 && !done && loopAlive
    {
      var size: nat := if batchSize <= 0 then 5000 else batchSize;
      this.batchSize := size;
      data := new Point[size](_ => Point.Point("", map[], map[], 0));
      len := 0;
      done, loopAlive, closed := false, true, false;
      accepted, persisted, batches, outcomes := [], [], [], [];
    }

    /** w.buffer = append(w.buffer, p): in place while there is room, else into a larger copy. */
    method Append(p: Point)
      requires Valid()
      modifies this`data, this`len, this`accepted, data
      ensures Valid() && (data == old(data) || fresh(data))
      ensures Abs() == Appended(old(Abs()), p)
    {
      if len == data.Length {
        var larger := new Point[2 * len + 1](_ => p);
        for i := 0 to len
          modifies larger
          invariant larger[..i] == data[..i]
        {
          larger[i] := data[i];
        }
        data := larger;
      }
      data[len] := p;
      len := len + 1;
      accepted := accepted + [p];
    }

    /** flushLocked: the batch is built point by point before the server sees it. */
    method DoFlush(ok: bool) returns (failed: bool)
      requires Valid()
      modifies this`len, this`persisted, this`batches, this`outcomes
      ensures Valid() && Abs() == FlushLocked(old(Abs()), ok)
      ensures failed <==> old(len) > 0 && !ok
      ensures ok ==> len == 0 && persisted == old(persisted) + data[..old(len)]
      ensures !ok ==> len == old(len) && persisted == old(persisted)
      ensures outcomes == if old(len) == 0 then old(outcomes) else old(outcomes) + [ok]
      ensures batches == if old(len) > 0 && ok then old(batches) + [data[..old(len)]] else old(batches)
    {
      if len == 0 {
        return false;
      }
      var points: seq<Point> := [];
      for i := 0 to len
        invariant points == data[..i]
      {
        points := points + [data[i]];
      }
      outcomes := outcomes + [ok];
      if !ok {
        return true;
      }
      persisted := persisted + points;
      batches := batches + [points];
      len := 0;
      return false;
    }

    method WritePoint(p: Point, ok: bool) returns (failed: bool)
      requires Valid()
      modifies this, data
      ensures Valid() && (data == old(data) || fresh(data))
      ensures Abs() == Step(old(Abs()), Write(p, ok))
      ensures failed <==> WriteFails(old(Abs()), ok)
      ensures failed <==> old(len) + 1 >= batchSize && !ok
      ensures old(len) + 1 < batchSize || !ok ==>
                len == old(len) + 1 && data[..len] == old(data[..len]) + [p] && persisted == old(persisted)
      ensures old(len) + 1 >= batchSize && ok ==> len == 0 && persisted == old(persisted) + old(data[..len]) + [p]
      ensures outcomes == if old(len) + 1 < batchSize then old(outcomes) else old(outcomes) + [ok]
    {
      Append(p);
      if len >= batchSize {
        failed := DoFlush(ok);
      } else {
        failed := false;
      }
    }

    method Flush(ok: bool) returns (failed: bool)
      requires Valid()
      modifies this
      ensures Valid() && data == old(data) && Abs() == Step(old(Abs()), Op.Flush(ok))
      ensures failed <==> old(len) > 0 && !ok
      ensures ok ==> len == 0 && persisted == old(persisted) + old(data[..len])
      ensures !ok ==> data[..len] == old(data[..len]) && persisted == old(persisted)
    {
      failed := DoFlush(ok);
    }

    /** One tick of flushLoop. */
    method OnTick(ok: bool)
      requires Valid() && loopAlive
      modifies this
      ensures Valid() && data == old(data) && Abs() == Step(old(Abs()), Tick(ok))
      ensures ok ==> len == 0 && persisted == old(persisted) + old(data[..len])
      ensures !ok ==> data[..len] == old(data[..len]) && persisted == old(persisted)
    {
      var failed := DoFlush(ok);
    }

    /** Closing w.done twice panics, so Close is called once. The loop's own last ticks come before `LoopReturns`. */
    method Close(ok: bool)
      requires Valid() && !done && loopAlive && !closed
      modifies this
      ensures Valid() && data == old(data)
      ensures Abs() == Run(old(Abs()), [CloseDone, LoopReturns, FinalFlush(ok)])
      ensures done && !loopAlive && closed
      ensures ok ==> len == 0 && persisted == old(persisted) + old(data[..len])
      ensures !ok ==> data[..len] == old(data[..len]) && persisted == old(persisted)
    {
      ghost var w := Abs();
      done := true;
      loopAlive := false;
      var failed := DoFlush(ok);
      closed := true;
      CloseRun(w, ok);
    }
  }

  lemma CloseRun(w: Writer, ok: bool)
    ensures Run(w, [CloseDone, LoopReturns, FinalFlush(ok)]) ==
            Step(Step(Step(w, CloseDone), LoopReturns), FinalFlush(ok))
  {
    var ops := [CloseDone, LoopReturns, FinalFlush(ok)];
    var last := [FinalFlush(ok)];
    assert ops[1..] == [LoopReturns] + last && ([LoopReturns] + last)[1..] == last;
    assert last[1..] == [];
    var w2 := Step(Step(w, CloseDone), LoopReturns);
    assert Run(w2, last) == Run(Step(w2, FinalFlush(ok)), []);
    assert Run(Step(w, CloseDone), [LoopReturns] + last) == Run(w2, last);
  }
}
