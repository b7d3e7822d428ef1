/**
 RouterCollector of internal/collector/router.go: the loop around streaming sessions. What the pool, the
 router and the context do in each round is given by the environment; a finite list of rounds is any
 prefix of an endless run.
 */
module Session {
  import opened Wrappers
  import opened Domain
  import opened Backoff
  import Conn

  // ------------------------------------------------------------- one stream

  /** What a stream's select sees: the context done, the channel closed, or a sentence and what Parse makes of it. */
  datatype Item = ContextDone | ChannelClosed | Unparsable | Skipped | Parsed(e: TelemetryEvent)

  datatype StreamEnd = CleanEnd | StreamError | Streaming

  /** The events before the stream's end. */
  function Delivered(items: seq<Item>): seq<TelemetryEvent> {
    if items == [] || items[0].ContextDone? || items[0].ChannelClosed? then []
    else (if items[0].Parsed? then [items[0].e] else []) + Delivered(items[1..])
  }

  /** A stream ends cleanly only because its context is done. */
  function EndOf(listenOk: bool, items: seq<Item>): StreamEnd {
    if !listenOk then StreamError
    else if items == [] then Streaming
    else match items[0]
         case ContextDone => CleanEnd
         case ChannelClosed => StreamError
         case _ => EndOf(listenOk, items[1..])
  }

  /** runSpec: every parsed event is processed, in order; parse and processing errors only get logged. */
  method RunSpec(listenOk: bool, items: seq<Item>) returns (end: StreamEnd, processed: seq<TelemetryEvent>)
    ensures end == EndOf(listenOk, items)
    ensures processed == if listenOk then Delivered(items) else []
  {
    processed := [];
    if !listenOk {
      return StreamError, processed;
    }
    var left := items;
    while left != []
      invariant EndOf(listenOk, items) == EndOf(listenOk, left)
      invariant Delivered(items) == processed + Delivered(left)
      decreases |left|
    {
      match left[0] {
        case ContextDone => return CleanEnd, processed;
        case ChannelClosed => return StreamError, processed;
        case Unparsable =>
        case Skipped =>
        case Parsed(e) => processed := processed + [e];
      }
      left := left[1..];
    }
    end := Streaming;
  }

  lemma {:induction false} CleanEndMeansDone(items: seq<Item>)
    ensures EndOf(true, items).CleanEnd? ==> ContextDone in items
  {
    if items != [] && !items[0].ContextDone? && !items[0].ChannelClosed? {
      CleanEndMeansDone(items[1..]);
    }
  }

  predicate EndsStream(i: Item) {
    i.ContextDone? || i.ChannelClosed?
  }

  /** n is where the stream ends, or the number of its items if it does not. */
  predicate IsEnd(items: seq<Item>, n: nat) {
    && n <= |items| && (n < |items| ==> EndsStream(items[n]))
    && forall i | 0 <= i < n :: !EndsStream(items[i])
  }

  /** The first item that ends the stream says how: cleanly for a done context, with an error for a closed channel. */
  lemma {:induction false} EndIsFirstEnd(items: seq<Item>, n: nat)
    requires IsEnd(items, n)
    ensures EndOf(true, items) == if n == |items| then Streaming
                                  else if items[n] == ContextDone then CleanEnd else StreamError
    ensures Delivered(items) == Delivered(items[..n])
  {
    if n > 0 {
      EndIsFirstEnd(items[1..], n - 1);
      assert items[..n][1..] == items[1..][..n - 1];
    }
  }

  /** Until then each item adds its event, if it parses, at the end, and nothing else. */
  lemma {:induction false} EachParsedOnce(items: seq<Item>, i: nat)
    requires i < |items| && forall j | 0 <= j <= i :: !EndsStream(items[j])
    ensures Delivered(items[..0]) == []
    ensures Delivered(items[..i + 1]) == Delivered(items[..i]) + (match items[i] case Parsed(e) => [e] case _ => [])
  {
    assert items[..i + 1][1..] == items[1..][..i];
    if i > 0 {
      EachParsedOnce(items[1..], i - 1);
      assert items[..i][1..] == items[1..][..i - 1];
    }
  }

  // ------------------------------------------------------------- one session

  /** The error runAllSpecs returns: how many specs failed of how many. */
  datatype SessionError = SpecsFailed(count: nat, total: nat) | NotFound | ConnectFailed | AcquireFailed

  function ErrorCount(ends: seq<StreamEnd>): nat {
    if ends == [] then 0 else ErrorCount(ends[..|ends| - 1]) + if ends[|ends| - 1].StreamError? then 1 else 0
  }

  /** As many as there are streams that ended with an error. */
  lemma {:induction false} ErrorCountIs(ends: seq<StreamEnd>)
    ensures ErrorCount(ends) == |set i | 0 <= i < |ends| && ends[i] == StreamError|
  {
    if ends != [] {
      var init, n := ends[..|ends| - 1], |ends| - 1;
      ErrorCountIs(init);
      var before := set i | 0 <= i < |init| && init[i] == StreamError;
      var now := set i | 0 <= i < |ends| && ends[i] == StreamError;
      assert now == if ends[n] == StreamError then before + {n} else before;
    }
  }

  /** What the environment gives to one spec's goroutine. */
  datatype Stream = Stream(listenOk: bool, items: seq<Item>)

  function Ends(streams: seq<Stream>): seq<StreamEnd> {
    seq(|streams|, i requires 0 <= i < |streams| => EndOf(streams[i].listenOk, streams[i].items))
  }

  /** runAllSpecs, over the specs' goroutines in the order they end. */
  method RunAllSpecs(streams: seq<Stream>, contextDone: bool) returns (err: Option<SessionError>)
    ensures var failed := ErrorCount(Ends(streams));
            err == if !contextDone && failed > 0 then Some(SpecsFailed(failed, |streams|)) else None
  {
    ghost var ends := Ends(streams);
    var errCount: nat, lastErr := 0, false;
    for i := 0 to |streams|
      invariant errCount == ErrorCount(ends[..i]) && (lastErr <==> errCount > 0)
    {
      assert ends[..i + 1][..i] == ends[..i];
      var end, processed := RunSpec(streams[i].listenOk, streams[i].items);
      if end.StreamError? {
        errCount := errCount + 1;
        lastErr := true;
      }
    }
    assert ends[..|ends|] == ends;
    if contextDone {
      return None;
    }
    err := if lastErr then Some(SpecsFailed(errCount, |streams|)) else None;
  }

  /** What the environment does in one round of Start's loop. */
  datatype Round = Round(
    doneAtTop: bool,          // the context is done when the loop looks
    found: bool,              // the pool knows the router
    connected: bool,          // State() is Connected
    connectOk: bool,
    acquireOk: bool,
    streams: seq<Stream>,     // what the specs' goroutines see
    doneAfter: bool,          // the context is done when they all have
    doneInWait: bool)         // the context is done before the retry timer fires

  /** One stream per spec; every one has ended; and a context that one of them has seen done stays done. */
  ghost predicate Possible(r: Round, specs: nat) {
    && |r.streams| == specs
    && (forall s | s in r.streams :: !EndOf(s.listenOk, s.items).Streaming?)
    && (forall s | s in r.streams && s.listenOk && ContextDone in s.items :: r.doneAfter)
  }

  predicate SeesDone(r: Round) {
    r.doneAtTop || r.doneAfter || r.doneInWait
  }

  datatype PoolCall = Acquired | Released

  /** acquireAndStream's error, and its successful AcquireAsync and Release calls. */
  function Attempt(r: Round): (Option<SessionError>, seq<PoolCall>) {
    if !r.found then (Some(NotFound), [])
    else if !r.connected && !r.connectOk then (Some(ConnectFailed), [])
    else if !r.acquireOk then (Some(AcquireFailed), [])
    else
      var failed := ErrorCount(Ends(r.streams));
      (if !r.doneAfter && failed > 0 then Some(SpecsFailed(failed, |r.streams|)) else None, [Acquired, Released])
  }

  datatype RoundResult = RoundResult(exits: bool, waits: bool, calls: seq<PoolCall>)

  function ResultOf(r: Round): RoundResult {
    if r.doneAtTop then RoundResult(true, false, [])
    else
      var (err, calls) := Attempt(r);
      if err.None? then RoundResult(true, false, calls) else RoundResult(r.doneInWait, true, calls)
  }

  predicate Acquires(r: Round) {
    r.found && (r.connected || r.connectOk) && r.acquireOk
  }

  /** The round's session ends without an error: its context is done by then, or there was nothing to stream. */
  predicate EndsClean(r: Round) {
    Acquires(r) && (r.doneAfter || r.streams == [])
  }

  /** The loop sees in this round that it is to return. */
  predicate Notices(r: Round) {
    r.doneAtTop || r.doneInWait || EndsClean(r)
  }

  ghost predicate IsFirst(rounds: seq<Round>, k: nat) {
    k < |rounds| && Notices(rounds[k]) && forall j | 0 <= j < k :: !Notices(rounds[j])
  }

  function AcquireCount(rounds: seq<Round>): nat {
    if rounds == [] then 0 else (if Acquires(rounds[0]) then 1 else 0) + AcquireCount(rounds[1..])
  }

  /** Acquired and released, n times over. */
  function Pairs(n: nat): seq<PoolCall> {
    seq(2 * n, i => if i % 2 == 0 then Acquired else Released)
  }

  lemma RoundIs(r: Round, specs: nat)
    requires Possible(r, specs)
    ensures ResultOf(r).exits <==> Notices(r)
    ensures ResultOf(r).waits <==> !r.doneAtTop && !EndsClean(r)
    ensures ResultOf(r).calls == Pairs(if !r.doneAtTop && Acquires(r) then 1 else 0)
  {
    if Acquires(r) && !r.doneAfter && r.streams != [] {
      SomeSpecAlwaysErrs(r, specs);
    }
  }

  lemma MorePairs(n: nat, m: nat)
    ensures Pairs(n) + Pairs(m) == Pairs(n + m)
  {
  }

  /** The loop returns in the first round that notices, and does nothing after it. */
  lemma {:induction false} ReturnsAtFirst(rounds: seq<Round>, specs: nat, k: nat)
    requires IsFirst(rounds, k) && forall j | 0 <= j < |rounds| :: Possible(rounds[j], specs)
    ensures var r := rounds[k];
            && Loop(rounds).0 == Returned
            && Loop(rounds).1 == k + (if !r.doneAtTop && !EndsClean(r) then 1 else 0)
            && Loop(rounds).2 == Pairs(AcquireCount(rounds[..k]) + (if !r.doneAtTop && Acquires(r) then 1 else 0))
  {
    RoundIs(rounds[0], specs);
    if k > 0 {
      ReturnsAtFirst(rounds[1..], specs, k - 1);
      CountFirst(rounds, k);
      var last := if !rounds[k].doneAtTop && Acquires(rounds[k]) then 1 else 0;
      FirstRoundThen(rounds, specs, Loop(rounds[1..]), AcquireCount(rounds[1..][..k - 1]) + last);
    }
  }

  lemma CountFirst(rounds: seq<Round>, k: nat)
    requires 0 < k <= |rounds|
    ensures AcquireCount(rounds[..k]) == (if Acquires(rounds[0]) then 1 else 0) + AcquireCount(rounds[1..][..k - 1])
  {
    assert rounds[..k][1..] == rounds[1..][..k - 1];
  }

  /** A round that does not notice is followed by the rest of the loop. */
  lemma FirstRoundThen(rounds: seq<Round>, specs: nat, rest: (Exit, nat, seq<PoolCall>), n: nat)
    requires rounds != [] && Possible(rounds[0], specs) && !Notices(rounds[0])
    requires rest == Loop(rounds[1..]) && rest.2 == Pairs(n)
    ensures Loop(rounds) == (rest.0, 1 + rest.1, Pairs((if Acquires(rounds[0]) then 1 else 0) + n))
  {
    RoundIs(rounds[0], specs);
    MorePairs(if Acquires(rounds[0]) then 1 else 0, n);
  }

  /** While none does it goes on, waiting after every round. */
  lemma {:induction false} GoesOnUntilNoticed(rounds: seq<Round>, specs: nat)
    requires forall j | 0 <= j < |rounds| :: Possible(rounds[j], specs) && !Notices(rounds[j])
    ensures Loop(rounds) == (StillRunning, |rounds|, Pairs(AcquireCount(rounds)))
  {
    if rounds == [] {
      assert Pairs(0) == [];
    } else {
      GoesOnUntilNoticed(rounds[1..], specs);
      FirstRoundThen(rounds, specs, Loop(rounds[1..]), AcquireCount(rounds[1..]));
    }
  }

  lemma FirstOrNone(rounds: seq<Round>) returns (k: nat)
    ensures IsFirst(rounds, k) || (k == |rounds| && forall j | 0 <= j < |rounds| :: !Notices(rounds[j]))
  {
    k := 0;
    while k < |rounds| && !Notices(rounds[k])
      invariant k <= |rounds| && forall j | 0 <= j < k :: !Notices(rounds[j])
    {
      k := k + 1;
    }
  }

  datatype Exit = AlreadyRunning | Returned | StillRunning

  /** How Start's rounds go: whether it returns, after how many waits, and all its pool calls. */
  function Loop(rounds: seq<Round>): (Exit, nat, seq<PoolCall>) {
    if rounds == [] then (StillRunning, 0, []) else
      var RoundResult(exits, waits, calls) := ResultOf(rounds[0]);
      var one := if waits then 1 else 0;
      if exits then (Returned, one, calls)
      else
        var (exit, more, rest) := Loop(rounds[1..]);
        (exit, one + more, calls + rest)
  }

  /** Every successful acquire is followed by its one release before the next. */
  predicate Paired(calls: seq<PoolCall>) {
    calls == [] || (|calls| >= 2 && calls[0].Acquired? && calls[1].Released? && Paired(calls[2..]))
  }

  lemma {:induction false} PairedThen(a: seq<PoolCall>, b: seq<PoolCall>)
    requires Paired(a) && Paired(b)
    ensures Paired(a + b)
  {
    if a == [] {
      assert a + b == b;
    } else {
      PairedThen(a[2..], b);
      assert (a + b)[2..] == a[2..] + b;
    }
  }

  lemma {:induction false} AcquiresArePaired(rounds: seq<Round>)
    ensures Paired(Loop(rounds).2)
  {
    if rounds != [] {
      AcquiresArePaired(rounds[1..]);
      var calls := ResultOf(rounds[0]).calls;
      assert calls == [] || calls == [Acquired, Released];
      assert Paired(calls);
      PairedThen(calls, Loop(rounds[1..]).2);
    }
  }

  lemma SomeSpecAlwaysErrs(r: Round, specs: nat)
    requires Possible(r, specs) && specs > 0 && !r.doneAfter
    ensures ErrorCount(Ends(r.streams)) > 0
  {
    var last := r.streams[|r.streams| - 1];
    assert last in r.streams;
    CleanEndMeansDone(last.items);
    assert Ends(r.streams)[|r.streams| - 1].StreamError?;
  }

  lemma {:induction false} ReturnsOnlyWhenDone(rounds: seq<Round>, specs: nat)
    requires specs > 0 && forall k | 0 <= k < |rounds| :: Possible(rounds[k], specs)
    requires Loop(rounds).0.Returned?
    ensures exists k | 0 <= k < |rounds| :: SeesDone(rounds[k])
  {
    if ResultOf(rounds[0]).exits {
      if !rounds[0].doneAfter {
        SomeSpecAlwaysErrs(rounds[0], specs);
      }
      assert SeesDone(rounds[0]);
    } else {
      ReturnsOnlyWhenDone(rounds[1..], specs);
      var k :| 0 <= k < |rounds[1..]| && SeesDone(rounds[1..][k]);
      assert SeesDone(rounds[k + 1]);
    }
  }

  ghost predicate ReturnsUndone(rounds: seq<Round>, specs: nat) {
    && (forall k | 0 <= k < |rounds| :: Possible(rounds[k], specs) && !SeesDone(rounds[k]))
    && Loop(rounds).0.Returned?
  }

  /** Start can return without its context being done exactly when it has no specs to run. */
  lemma ReturnsEarlyIffNoSpecs(specs: nat)
    ensures (exists rounds :: ReturnsUndone(rounds, specs)) <==> specs == 0
  {
    if specs == 0 {
      var r := Round(false, true, true, true, true, [], false, false);
      assert ResultOf(r).exits;
      assert ReturnsUndone([r], 0);
    } else if rounds :| ReturnsUndone(rounds, specs) {
      ReturnsOnlyWhenDone(rounds, specs);
      assert false;
    }
  }

  // ------------------------------------------------------------- the collector itself

  lemma NextRound(left: seq<Round>, before: seq<PoolCall>)
    requires left != []
    ensures var RoundResult(exits, waits, calls) := ResultOf(left[0]);
            var one := if waits then 1 else 0;
            && Loop(left).0 == (if exits then Returned else Loop(left[1..]).0)
            && Loop(left).1 == one + (if exits then 0 else Loop(left[1..]).1)
            && before + Loop(left).2 == (before + calls) + (if exits then [] else Loop(left[1..]).2)
  {
    var RoundResult(exits, _, calls) := ResultOf(left[0]);
    var rest := if exits then [] else Loop(left[1..]).2;
    assert Loop(left).2 == calls + rest;
    JoinCalls(before, calls, rest);
  }

  lemma JoinCalls(a: seq<PoolCall>, b: seq<PoolCall>, c: seq<PoolCall>)
    ensures a + (b + c) == (a + b) + c
  {
  }

  class RouterCollector {
    const config: Conn.Config
    const specs: nat
    var running: bool
    var hasCancel: bool              // rc.cancel is set
    ghost var cancelled: bool        // rc.cancel has been called since it was set
    ghost var calls: seq<PoolCall>   // successful AcquireAsync and Release calls on the pool's connections

    /** Start has not run yet. */
    ghost predicate IsNew()
      reads this
    {
      !running && !hasCancel && !cancelled && calls == []
    }

    constructor (config: Conn.Config, specs: nat)
      ensures this.config == config && this.specs == specs && IsNew()
    {
      this.config, this.specs := config, specs;
      running, hasCancel, cancelled, calls := false, false, false, [];
    }

    /** acquireAndStream: whatever the session's outcome, an acquired client is released once. */
    method AcquireAndStream(r: Round) returns (err: Option<SessionError>)
      modifies this`calls
      ensures err == Attempt(r).0 && calls == old(calls) + Attempt(r).1
      ensures !Acquires(r) ==>
                calls == old(calls) &&
                err == Some(if !r.found then NotFound
                            else if !r.connected && !r.connectOk then ConnectFailed
                            else AcquireFailed)
      ensures Acquires(r) ==> calls == old(calls) + [Acquired, Released]
      ensures Acquires(r) ==>
                var failed := set i | 0 <= i < |r.streams| && Ends(r.streams)[i] == StreamError;
                err == if r.doneAfter || failed == {} then None else Some(SpecsFailed(|failed|, |r.streams|))
    {
      ErrorCountIs(Ends(r.streams));
      if !r.found {
        return Some(NotFound);
      }
      if !r.connected {
        if !r.connectOk {
          return Some(ConnectFailed);
        }
      }
      if !r.acquireOk {
        return Some(AcquireFailed);
      }
      calls := calls + [Acquired];
      var streamErr := RunAllSpecs(r.streams, r.doneAfter);
      calls := calls + [Released];
      return streamErr;
    }

    /**
     The loop's exit, pool calls and waits. The waits are one backoff sequence for the whole call: a session
     that ran and then failed does not reset it.
     */
    method Start(rounds: seq<Round>) returns (exit: Exit, waits: seq<int>)
      requires forall k | 0 <= k < |rounds| :: Possible(rounds[k], specs)
      modifies this
      ensures old(running) ==> exit == AlreadyRunning && waits == [] && unchanged(this)
      ensures !old(running) ==>
                (exit, |waits|) == (Loop(rounds).0, Loop(rounds).1) && calls == old(calls) + Loop(rounds).2
      ensures !old(running) ==> running && hasCancel && !cancelled
      ensures AreDelays(waits, Conn.Interval(config), Conn.MaxInterval(config))
      ensures exit == Returned && specs > 0 ==> exists k | 0 <= k < |rounds| :: SeesDone(rounds[k])
      ensures forall k: nat | !old(running) && IsFirst(rounds, k) ::
                var r := rounds[k];
                && exit == Returned
                && |waits| == k + (if !r.doneAtTop && !EndsClean(r) then 1 else 0)
                && calls == old(calls) +
                            Pairs(AcquireCount(rounds[..k]) + (if !r.doneAtTop && Acquires(r) then 1 else 0))
      ensures !old(running) && (forall k | 0 <= k < |rounds| :: !Notices(rounds[k])) ==>
                exit == StillRunning && |waits| == |rounds| && calls == old(calls) + Pairs(AcquireCount(rounds))
    {
      if running {
        return AlreadyRunning, [];
      }
      running, hasCancel, cancelled := true, true, false;
      exit, waits := RunLoop(rounds);
      ghost var first := FirstOrNone(rounds);
      if first < |rounds| {
        ReturnsAtFirst(rounds, specs, first);
      } else {
        GoesOnUntilNoticed(rounds, specs);
      }
      if exit == Returned && specs > 0 {
        ReturnsOnlyWhenDone(rounds, specs);
      }
    }

    /** Start's loop. */
    method RunLoop(rounds: seq<Round>) returns (exit: Exit, waits: seq<int>)
      modifies this`calls
      ensures (exit, |waits|) == (Loop(rounds).0, Loop(rounds).1) && calls == old(calls) + Loop(rounds).2
      ensures AreDelays(waits, Conn.Interval(config), Conn.MaxInterval(config))
    {
      waits := [];
      var delay := DefaultInterval(config.interval);
      var left := rounds;
      while left != []
        invariant Loop(rounds).0 == Loop(left).0 && Loop(rounds).1 == |waits| + Loop(left).1
        invariant old(calls) + Loop(rounds).2 == calls + Loop(left).2
        invariant AreDelays(waits, Conn.Interval(config), Conn.MaxInterval(config))
        invariant delay == Delay(Conn.Interval(config), Conn.MaxInterval(config), |waits|)
        decreases |left|
      {
        var r := left[0];
        NextRound(left, calls);
        if r.doneAtTop {
          return Returned, waits;
        }
        var err := AcquireAndStream(r);
        if err.None? {
          return Returned, waits;
        }
        OneMoreDelay(waits, Conn.Interval(config), Conn.MaxInterval(config), delay);
        waits := waits + [delay];
        if r.doneInWait {
          return Returned, waits;
        }
        delay := Doubled(delay, DefaultMax(config.maxInterval));
        left := left[1..];
      }
      exit := StillRunning;
    }

    /** Before Start has set rc.cancel there is nothing to cancel, and a later Start is not stopped by this. */
    method Stop()
      modifies this
      ensures !running && hasCancel == old(hasCancel) && calls == old(calls)
      ensures cancelled <==> old(cancelled) || old(hasCancel)
    {
      if hasCancel {
        cancelled := true;
      }
      running := false;
    }
  }
}
