/**
 The concurrent spec goroutines of internal/collector/router.go: each stream's effects happen in its own
 order, interleaved in any way with the others'. For streams of distinct router and measurement the
 interleaving makes no difference to the entity cache or to the aggregator's users.
 */
module Streams {
  import opened Wrappers
  import opened Domain
  import opened Parser
  import opened Aggregator
  import opened CacheStore
  import opened Telemetry

  /** The router and measurement an action belongs to. */
  datatype Source = Source(routerID: string, measurement: string)

  predicate From(a: Action, src: Source) {
    !a.StoreList? && a.e.routerID == src.routerID && a.e.measurement == src.measurement
  }

  function Only(run: seq<Action>, src: Source): seq<Action> {
    if run == [] then [] else
      var a := run[|run| - 1];
      Only(run[..|run| - 1], src) + (if From(a, src) then [a] else [])
  }

  function Front(s: seq<Action>): seq<Action>
    requires s != []
  {
    s[..|s| - 1]
  }

  /** The run without the lists that the aggregator's own goroutines store. */
  function Streamed(run: seq<Action>): seq<Action> {
    if run == [] then [] else
      var a := run[|run| - 1];
      Streamed(run[..|run| - 1]) + (if a.StoreList? then [] else [a])
  }

  lemma StreamedFront(run: seq<Action>)
    requires run != []
    ensures run[|run| - 1].StoreList? ==> Streamed(run) == Streamed(Front(run))
    ensures !run[|run| - 1].StoreList? ==> Streamed(run) == Streamed(Front(run)) + [run[|run| - 1]]
  {
  }

  lemma {:induction false} OnlyStreamed(run: seq<Action>, src: Source)
    ensures Only(Streamed(run), src) == Only(run, src)
  {
    if run != [] {
      OnlyStreamed(Front(run), src);
      StreamedFront(run);
      var own, a := Streamed(Front(run)), run[|run| - 1];
      if a.StoreList? {
        assert Only(run, src) == Only(Front(run), src);
      } else {
        assert (own + [a])[..|own|] == own;
      }
    }
  }

  /** Every other action is there. */
  lemma {:induction false} StreamedHolds(run: seq<Action>, k: nat)
    requires k < |run| && !run[k].StoreList?
    ensures run[k] in Streamed(run)
  {
    StreamedFront(run);
    if k < |run| - 1 {
      StreamedHolds(Front(run), k);
    }
  }

  /** Lists are stored for colon-free router IDs. */
  predicate ProperLists(run: seq<Action>) {
    forall i | 0 <= i < |run| :: run[i].StoreList? ==> Proper(run[i])
  }

  /** run is a merge of the streams that keeps each stream's order. */
  ghost predicate Interleaves(run: seq<Action>, streams: seq<seq<Action>>)
    decreases |run|
  {
    if run == [] then forall i | 0 <= i < |streams| :: streams[i] == []
    else exists i | 0 <= i < |streams| :: LastOf(run, streams, i)
  }

  ghost predicate LastOf(run: seq<Action>, streams: seq<seq<Action>>, i: nat)
    requires run != [] && i < |streams|
    decreases |run|, 0
  {
    && streams[i] != []
    && streams[i][|streams[i]| - 1] == run[|run| - 1]
    && Interleaves(Front(run), streams[i := Front(streams[i])])
  }

  function Length(streams: seq<seq<Action>>): nat {
    if streams == [] then 0 else |streams[0]| + Length(streams[1..])
  }

  lemma {:induction false} ShorterByOne(streams: seq<seq<Action>>, i: nat)
    requires i < |streams| && streams[i] != []
    ensures Length(streams[i := Front(streams[i])]) == Length(streams) - 1
  {
    var shorter := streams[i := Front(streams[i])];
    if i > 0 {
      ShorterByOne(streams[1..], i - 1);
      assert shorter[1..] == streams[1..][i - 1 := Front(streams[i])];
    } else {
      assert shorter[1..] == streams[1..];
    }
  }

  /** Any streams have an interleaving, whichever of them has the last action. */
  lemma {:induction false} SomeInterleaving(streams: seq<seq<Action>>, i: nat) returns (run: seq<Action>)
    requires (exists j | 0 <= j < |streams| :: streams[j] != []) ==> i < |streams| && streams[i] != []
    ensures Interleaves(run, streams)
    ensures run != [] ==> i < |streams| && LastOf(run, streams, i)
    decreases Length(streams)
  {
    if i < |streams| && streams[i] != [] {
      var rest := streams[i := Front(streams[i])];
      ShorterByOne(streams, i);
      var next: nat := i;
      if exists j | 0 <= j < |rest| :: rest[j] != [] {
        next :| next < |rest| && rest[next] != [];
      }
      var init := SomeInterleaving(rest, next);
      run := init + [streams[i][|streams[i]| - 1]];
      assert Front(run) == init && LastOf(run, streams, i);
    } else {
      run := [];
    }
  }

  /** Each stream comes from one source, and no two from the same. */
  ghost predicate Distinct(streams: seq<seq<Action>>, sources: seq<Source>) {
    && |streams| == |sources|
    && (forall i, j | 0 <= i < j < |sources| :: sources[i] != sources[j])
    && (forall i | 0 <= i < |streams| :: AllFrom(streams[i], sources[i]))
  }

  ghost predicate AllFrom(s: seq<Action>, src: Source) {
    forall k | 0 <= k < |s| :: From(s[k], src)
  }

  /** Every merge holds each stream as its source's part, and nothing else. */
  lemma {:induction false} MergeKeepsStreams(run: seq<Action>, streams: seq<seq<Action>>, sources: seq<Source>)
    requires Interleaves(run, streams) && Distinct(streams, sources)
    ensures forall i | 0 <= i < |streams| :: Only(run, sources[i]) == streams[i]
    ensures forall src | src !in sources :: Only(run, src) == []
    decreases |run|
  {
    if run != [] {
      var i: nat :| i < |streams| && LastOf(run, streams, i);
      var a, rest := run[|run| - 1], streams[i := Front(streams[i])];
      assert From(streams[i][|streams[i]| - 1], sources[i]);
      MergeKeepsStreams(Front(run), rest, sources);
      assert Only(Front(run), sources[i]) == rest[i] == Front(streams[i]);
      assert streams[i] == Front(streams[i]) + [a];
      forall j | 0 <= j < |streams| ensures Only(run, sources[j]) == streams[j] {
        if j != i {
          assert !From(a, sources[j]) && Only(Front(run), sources[j]) == rest[j];
        }
      }
    }
  }

  lemma TwoMergesAgree(run: seq<Action>, run': seq<Action>, streams: seq<seq<Action>>, sources: seq<Source>,
                       src: Source)
    requires Interleaves(Streamed(run), streams) && Interleaves(Streamed(run'), streams) && Distinct(streams, sources)
    ensures Only(run, src) == Only(run', src)
  {
    MergeKeepsStreams(Streamed(run), streams, sources);
    MergeKeepsStreams(Streamed(run'), streams, sources);
    OnlyStreamed(run, src);
    OnlyStreamed(run', src);
    if src in sources {
      var i :| 0 <= i < |sources| && sources[i] == src;
    }
  }

  /** A merge contains no action that is not in some stream. */
  lemma {:induction false} MergeAddsNothing(run: seq<Action>, streams: seq<seq<Action>>, k: nat)
    requires Interleaves(run, streams) && k < |run|
    ensures exists i, j | 0 <= i < |streams| && 0 <= j < |streams[i]| :: streams[i][j] == run[k]
    decreases |run|
  {
    var i: nat :| i < |streams| && LastOf(run, streams, i);
    if k < |run| - 1 {
      var rest := streams[i := Front(streams[i])];
      MergeAddsNothing(Front(run), rest, k);
      var i', j' :| 0 <= i' < |rest| && 0 <= j' < |rest[i']| && rest[i'][j'] == Front(run)[k];
      assert streams[i'][j'] == run[k];
    }
  }

  ghost predicate AllHealthy(streams: seq<seq<Action>>) {
    forall i | 0 <= i < |streams| :: Healthy(streams[i]) && AllProper(streams[i])
  }

  lemma MergeIsHealthy(run: seq<Action>, streams: seq<seq<Action>>)
    requires Interleaves(Streamed(run), streams) && AllHealthy(streams) && ProperLists(run)
    ensures Healthy(run) && AllProper(run)
  {
    var own := Streamed(run);
    forall l | 0 <= l < |run| ensures (run[l].Feed? ==> !Panics(run[l].e)) && Proper(run[l]) {
      if !run[l].StoreList? {
        StreamedHolds(run, l);
        var k :| 0 <= k < |own| && own[k] == run[l];
        MergeAddsNothing(own, streams, k);
        var i, j :| 0 <= i < |streams| && 0 <= j < |streams[i]| && streams[i][j] == own[k];
        assert Healthy(streams[i]) && AllProper(streams[i]);
      }
    }
  }

  // ------------------------------------------------------------- each part of the state looks at one source

  lemma {:induction false} OnlyIsHealthy(run: seq<Action>, src: Source)
    requires Healthy(run) && AllProper(run)
    ensures Healthy(Only(run, src)) && AllProper(Only(run, src))
  {
    if run != [] {
      OnlyIsHealthy(Front(run), src);
    }
  }

  lemma {:induction false} SnapshotsOfOneSource(run: seq<Action>, n: Entity)
    requires Healthy(run) && AllProper(run)
    ensures var own := Only(run, Source(n.routerID, n.measurement));
            AllProper(own) && SinceDead(run, n) == SinceDead(own, n)
  {
    var src := Source(n.routerID, n.measurement);
    OnlyIsHealthy(run, src);
    if run != [] {
      SnapshotsOfOneSource(Front(run), n);
      OnlyIsHealthy(Front(run), src);
      OneMoreSnapshot(run, n);
    }
  }

  lemma OneMoreSnapshot(run: seq<Action>, n: Entity)
    requires run != [] && Healthy(run) && AllProper(run)
    requires Healthy(Only(Front(run), Source(n.routerID, n.measurement)))
    requires var src := Source(n.routerID, n.measurement);
             AllProper(Only(run, src)) && AllProper(Only(Front(run), src))
             && SinceDead(Front(run), n) == SinceDead(Only(Front(run), src), n)
    ensures SinceDead(run, n) == SinceDead(Only(run, Source(n.routerID, n.measurement)), n)
  {
    var src := Source(n.routerID, n.measurement);
    var init, a := Front(run), run[|run| - 1];
    assert AllProper(init) && Proper(a);
    if From(a, src) {
      assert Only(run, src) == Only(init, src) + [a];
      assert Only(run, src)[..|Only(run, src)| - 1] == Only(init, src);
    } else {
      assert Only(run, src) == Only(init, src);
      assert a.Cache? ==> WellKeyed(a.e) && !IsAbout(a.e, n);
    }
  }

  lemma {:induction false} ConfiguredOfOneSource(run: seq<Action>, r: string, c: Category, u: string)
    requires Healthy(run) && AllProper(run)
    ensures LastTotal(Fed(run), r, c, u) == LastTotal(Fed(Only(run, Source(r, TotalMeasurement(c)))), r, c, u)
  {
    if run != [] {
      var src := Source(r, TotalMeasurement(c));
      ConfiguredOfOneSource(Front(run), r, c, u);
      FedStep(run, src);
      if run[|run| - 1].Feed? {
        LastWordAppend(Fed(Front(run)), run[|run| - 1].e, r, c, u);
        LastWordAppend(Fed(Only(Front(run), src)), run[|run| - 1].e, r, c, u);
      }
    }
  }

  lemma {:induction false} OnlineOfOneSource(run: seq<Action>, r: string, c: Category, u: string)
    requires Healthy(run) && AllProper(run)
    ensures LastActive(Fed(run), r, c, u) <==> LastActive(Fed(Only(run, Source(r, ActiveMeasurement(c)))), r, c, u)
  {
    if run != [] {
      var src := Source(r, ActiveMeasurement(c));
      OnlineOfOneSource(Front(run), r, c, u);
      FedStep(run, src);
      if run[|run| - 1].Feed? {
        LastWordAppend(Fed(Front(run)), run[|run| - 1].e, r, c, u);
        LastWordAppend(Fed(Only(Front(run), src)), run[|run| - 1].e, r, c, u);
      }
    }
  }

  lemma LastWordAppend(events: seq<TelemetryEvent>, e: TelemetryEvent, r: string, c: Category, u: string)
    ensures LastTotal(events + [e], r, c, u) ==
            if OnTotal(e, r, c, u) then (if e.kind.EventUpdate? then Some(CacheDataOf(e)) else None)
            else LastTotal(events, r, c, u)
    ensures LastActive(events + [e], r, c, u) <==>
            if OnActive(e, r, c, u) then e.kind.EventUpdate? else LastActive(events, r, c, u)
  {
    assert (events + [e])[..|events|] == events;
  }

  /** How the last action of a run shows in the fed events, of the run and of one source's part. */
  lemma FedStep(run: seq<Action>, src: Source)
    requires run != [] && Healthy(run) && AllProper(run)
    ensures var a, events, own := run[|run| - 1], Fed(Front(run)), Fed(Only(Front(run), src));
            && Fed(run) == (if a.Feed? then events + [a.e] else events)
            && Fed(Only(run, src)) == (if a.Feed? && From(a, src) then own + [a.e] else own)
  {
    var a, part := run[|run| - 1], Only(Front(run), src);
    OnlyIsHealthy(Front(run), src);
    if From(a, src) {
      assert Only(run, src)[..|part|] == part;
    } else {
      assert Only(run, src) == part;
    }
  }

  // ------------------------------------------------------------- the result

  /**
   Any two interleavings of the streams, with any lists stored at any moments in between, leave every entity's
   cached hash, and every router's configured and online users, the same. The streams must not panic the
   aggregator, which would end the process.
   */
  lemma InterleavingsAgree(run: seq<Action>, run': seq<Action>, streams: seq<seq<Action>>, sources: seq<Source>)
    requires Interleaves(Streamed(run), streams) && Interleaves(Streamed(run'), streams)
    requires ProperLists(run) && ProperLists(run') && Distinct(streams, sources) && AllHealthy(streams)
    ensures forall n | ColonFree(n) :: Get(Do(INITIAL, run).store, KeyOf(n)) == Get(Do(INITIAL, run').store, KeyOf(n))
    ensures forall r, c :: Totals(Do(INITIAL, run).agg, r, c) == Totals(Do(INITIAL, run').agg, r, c)
    ensures forall r, c :: Actives(Do(INITIAL, run).agg, r, c) == Actives(Do(INITIAL, run').agg, r, c)
  {
    MergeIsHealthy(run, streams);
    MergeIsHealthy(run', streams);
    forall n | ColonFree(n)
      ensures Get(Do(INITIAL, run).store, KeyOf(n)) == Get(Do(INITIAL, run').store, KeyOf(n))
    {
      CacheAgrees(run, run', streams, sources, n);
    }
    forall r, c
      ensures Totals(Do(INITIAL, run).agg, r, c) == Totals(Do(INITIAL, run').agg, r, c)
      ensures Actives(Do(INITIAL, run).agg, r, c) == Actives(Do(INITIAL, run').agg, r, c)
    {
      UsersAgree(run, run', streams, sources, r, c);
    }
  }

  lemma CacheAgrees(run: seq<Action>, run': seq<Action>, streams: seq<seq<Action>>, sources: seq<Source>, n: Entity)
    requires Interleaves(Streamed(run), streams) && Interleaves(Streamed(run'), streams) && Distinct(streams, sources)
    requires Healthy(run) && AllProper(run) && Healthy(run') && AllProper(run') && ColonFree(n)
    ensures Get(Do(INITIAL, run).store, KeyOf(n)) == Get(Do(INITIAL, run').store, KeyOf(n))
  {
    TwoMergesAgree(run, run', streams, sources, Source(n.routerID, n.measurement));
    SnapshotsOfOneSource(run, n);
    SnapshotsOfOneSource(run', n);
    StoreIsMergeSinceDead(run, n);
    StoreIsMergeSinceDead(run', n);
  }

  lemma UsersAgree(run: seq<Action>, run': seq<Action>, streams: seq<seq<Action>>, sources: seq<Source>,
                   r: string, c: Category)
    requires Interleaves(Streamed(run), streams) && Interleaves(Streamed(run'), streams) && Distinct(streams, sources)
    requires Healthy(run) && AllProper(run) && Healthy(run') && AllProper(run')
    ensures Totals(Do(INITIAL, run).agg, r, c) == Totals(Do(INITIAL, run').agg, r, c)
    ensures Actives(Do(INITIAL, run).agg, r, c) == Actives(Do(INITIAL, run').agg, r, c)
  {
    AggregatorFoldsFed(run);
    AggregatorFoldsFed(run');
    TwoMergesAgree(run, run', streams, sources, Source(r, TotalMeasurement(c)));
    TwoMergesAgree(run, run', streams, sources, Source(r, ActiveMeasurement(c)));
    TotalsAgree(run, run', r, c);
    ActivesAgree(run, run', r, c);
  }

  lemma TotalsAgree(run: seq<Action>, run': seq<Action>, r: string, c: Category)
    requires Healthy(run) && AllProper(run) && Healthy(run') && AllProper(run')
    requires Only(run, Source(r, TotalMeasurement(c))) == Only(run', Source(r, TotalMeasurement(c)))
    ensures Totals(Fold(Fed(run)), r, c) == Totals(Fold(Fed(run')), r, c)
  {
    var t, t' := Totals(Fold(Fed(run)), r, c), Totals(Fold(Fed(run')), r, c);
    forall u ensures (u in t <==> u in t') && (u in t ==> t[u] == t'[u]) {
      TotalsAreLastWords(Fed(run), r, c, u);
      TotalsAreLastWords(Fed(run'), r, c, u);
      ConfiguredOfOneSource(run, r, c, u);
      ConfiguredOfOneSource(run', r, c, u);
    }
  }

  lemma ActivesAgree(run: seq<Action>, run': seq<Action>, r: string, c: Category)
    requires Healthy(run) && AllProper(run) && Healthy(run') && AllProper(run')
    requires Only(run, Source(r, ActiveMeasurement(c))) == Only(run', Source(r, ActiveMeasurement(c)))
    ensures Actives(Fold(Fed(run)), r, c) == Actives(Fold(Fed(run')), r, c)
  {
    var s, s' := Actives(Fold(Fed(run)), r, c), Actives(Fold(Fed(run')), r, c);
    forall u ensures u in s <==> u in s' {
      ActivesAreLastWords(Fed(run), r, c, u);
      ActivesAreLastWords(Fed(run'), r, c, u);
      OnlineOfOneSource(run, r, c, u);
      OnlineOfOneSource(run', r, c, u);
    }
  }
}
