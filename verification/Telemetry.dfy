/**
 Event processing of internal/usecase/telemetry.go: each event feeds the aggregator, then is written,
 cached and published, each of which may fail without stopping the rest. A run is a sequence of these
 single effects, so that events of concurrent streams may interleave between them.
 */
module Telemetry {
  import opened Wrappers
  import opened Text
  import opened Domain
  import opened Parser
  import opened Aggregator
  import opened CacheStore
  import opened Recalculation

  // ------------------------------------------------------------- specification

  datatype Message = Message(channel: string, routerID: string, measurement: string, kind: EventType, tags: Data,
                             fields: map<string, Field>, timestamp: int)

  /** points: what WritePoint has been called with. crashed: a panic in the aggregator has ended the process. */
  datatype State = State(agg: Agg, store: Store, points: seq<Point>, published: seq<Message>, spawned: seq<Key>,
                         crashed: bool)

  const INITIAL := State(EMPTY, map[], [], [], [], false)

  /**
   ok says whether the repository call succeeds; a WritePoint that fails has taken its point all the same.
   StoreList is an aggregator goroutine's SetSnapshot.
   */
  datatype Action =
    | Feed(e: TelemetryEvent)
    | Write(e: TelemetryEvent, ok: bool)
    | Cache(e: TelemetryEvent, ok: bool)
    | Publish(e: TelemetryEvent, ok: bool)
    | StoreList(key: Key, data: Data, ok: bool)

  /** The router tag is added first, so an event's own "router" tag wins. */
  function PointOf(e: TelemetryEvent): Point {
    Point(e.measurement, map["router" := e.routerID] + e.tags, e.fields, e.timestamp)
  }

  function MessageOf(e: TelemetryEvent): Message {
    Message(FormatPubSubChannel(e.routerID), e.routerID, e.measurement, e.kind, e.tags, e.fields, e.timestamp)
  }

  /** The event's own measurement, fields, time and tags, and its router unless a tag of its own says otherwise. */
  predicate IsPointOf(p: Point, e: TelemetryEvent) {
    && p.measurement == e.measurement && p.fields == e.fields && p.timestamp == e.timestamp
    && p.tags.Keys == e.tags.Keys + {"router"}
    && (forall k | k in e.tags :: p.tags[k] == e.tags[k])
    && ("router" !in e.tags ==> p.tags["router"] == e.routerID)
  }

  predicate IsMessageOf(m: Message, e: TelemetryEvent) {
    && m.channel == "roskit:telemetry:" + e.routerID
    && m.routerID == e.routerID && m.measurement == e.measurement && m.kind == e.kind
    && m.tags == e.tags && m.fields == e.fields && m.timestamp == e.timestamp
  }

  lemma PointAndMessage(e: TelemetryEvent)
    ensures IsPointOf(PointOf(e), e) && IsMessageOf(MessageOf(e), e)
  {
  }

  function Cached(store: Store, e: TelemetryEvent): Store {
    if e.cacheKey == "" then store
    else if e.kind.EventDead? then CacheStore.Delete(store, e.cacheKey)
    else if e.kind.EventUpdate? && e.cacheData.Some? then Put(store, e.cacheKey, e.cacheData.value)
    else store
  }

  function Act(s: State, a: Action): (s': State)
    requires Together(s.agg)
    ensures Together(s'.agg)
  {
    if s.crashed then s else
      match a
      case Feed(e) =>
        if Panics(e) then s.(crashed := true)
        else s.(agg := Updated(s.agg, e),
                spawned := match Spawns(e) case Some(c) => s.spawned + [Key(e.routerID, c)] case None => s.spawned)
      case Write(e, _) => s.(points := s.points + [PointOf(e)])
      case Cache(e, ok) => if ok then s.(store := Cached(s.store, e)) else s
      case Publish(e, ok) => if ok then s.(published := s.published + [MessageOf(e)]) else s
      case StoreList(k, data, ok) =>
        if ok then s.(store := Put(s.store, InactiveKey(k.routerID, k.category), data)) else s
  }

  function Do(s: State, run: seq<Action>): (s': State)
    requires Together(s.agg)
    ensures Together(s'.agg)
  {
    if run == [] then s else Act(Do(s, run[..|run| - 1]), run[|run| - 1])
  }

  datatype Outcomes = Outcomes(write: bool, cache: bool, publish: bool)

  /** ProcessEvent's effects, in order. */
  function ActionsOf(e: TelemetryEvent, o: Outcomes): seq<Action> {
    match e.kind
    case EventUpdate => [Feed(e), Write(e, o.write), Cache(e, o.cache), Publish(e, o.publish)]
    case EventDead => [Feed(e), Cache(e, o.cache), Publish(e, o.publish)]
    case EventOther => [Feed(e)]
  }

  /** What one event leaves behind: no failed call keeps a later effect from happening. */
  function Handled(s: State, e: TelemetryEvent, o: Outcomes): (s': State)
    requires Together(s.agg) && !Panics(e)
    ensures Together(s'.agg)
  {
    State(
      Updated(s.agg, e),
      if o.cache then Cached(s.store, e) else s.store,
      if e.kind.EventUpdate? then s.points + [PointOf(e)] else s.points,
      if !e.kind.EventOther? && o.publish then s.published + [MessageOf(e)] else s.published,
      match Spawns(e) case Some(c) => s.spawned + [Key(e.routerID, c)] case None => s.spawned,
      false)
  }

  lemma EffectsAreIndependent(s: State, run: seq<Action>, e: TelemetryEvent, o: Outcomes)
    requires Together(s.agg) && !Do(s, run).crashed && !Panics(e)
    ensures Do(s, run + ActionsOf(e, o)) == Handled(Do(s, run), e, o)
  {
    DoActionsOf(s, run, e, o);
    HandledIsActs(Do(s, run), e, o);
  }

  function Acts(s: State, e: TelemetryEvent, o: Outcomes): State
    requires Together(s.agg)
  {
    var s1 := Act(s, Feed(e));
    match e.kind
    case EventUpdate => Act(Act(Act(s1, Write(e, o.write)), Cache(e, o.cache)), Publish(e, o.publish))
    case EventDead => Act(Act(s1, Cache(e, o.cache)), Publish(e, o.publish))
    case EventOther => s1
  }

  lemma HandledIsActs(s: State, e: TelemetryEvent, o: Outcomes)
    requires Together(s.agg) && !s.crashed && !Panics(e)
    ensures Acts(s, e, o) == Handled(s, e, o)
  {
    var s1 := Act(s, Feed(e));
    assert s1 == s.(agg := s1.agg, spawned := s1.spawned);
    match e.kind
    case EventUpdate => CacheThenPublish(Act(s1, Write(e, o.write)), e, o);
    case EventDead => CacheThenPublish(s1, e, o);
    case EventOther => assert Cached(s.store, e) == s.store;
  }

  lemma CacheThenPublish(s: State, e: TelemetryEvent, o: Outcomes)
    requires Together(s.agg) && !s.crashed
    ensures Act(Act(s, Cache(e, o.cache)), Publish(e, o.publish)) ==
            s.(store := if o.cache then Cached(s.store, e) else s.store,
               published := if o.publish then s.published + [MessageOf(e)] else s.published)
  {
  }

  /** Processing an event after any run extends the run by the event's actions. */
  lemma DoActionsOf(s: State, run: seq<Action>, e: TelemetryEvent, o: Outcomes)
    requires Together(s.agg)
    ensures Do(s, run + ActionsOf(e, o)) == Acts(Do(s, run), e, o)
  {
    DoAppend(s, run, Feed(e));
    match e.kind
    case EventUpdate =>
      DoThree(s, run + [Feed(e)], Write(e, o.write), Cache(e, o.cache), Publish(e, o.publish));
      JoinFour(run, Feed(e), Write(e, o.write), Cache(e, o.cache), Publish(e, o.publish));
    case EventDead =>
      DoTwo(s, run + [Feed(e)], Cache(e, o.cache), Publish(e, o.publish));
      JoinThree(run, Feed(e), Cache(e, o.cache), Publish(e, o.publish));
    case EventOther =>
  }

  lemma JoinThree(run: seq<Action>, a: Action, b: Action, c: Action)
    ensures run + [a, b, c] == run + [a] + [b] + [c]
  {
  }

  lemma JoinFour(run: seq<Action>, a: Action, b: Action, c: Action, d: Action)
    ensures run + [a, b, c, d] == run + [a] + [b] + [c] + [d]
  {
  }

  lemma DoTwo(s: State, run: seq<Action>, a: Action, b: Action)
    requires Together(s.agg)
    ensures Do(s, run + [a] + [b]) == Act(Act(Do(s, run), a), b)
  {
    DoAppend(s, run, a);
    DoAppend(s, run + [a], b);
  }

  lemma DoThree(s: State, run: seq<Action>, a: Action, b: Action, c: Action)
    requires Together(s.agg)
    ensures Do(s, run + [a] + [b] + [c]) == Act(Act(Act(Do(s, run), a), b), c)
  {
    DoTwo(s, run, a, b);
    DoAppend(s, run + [a] + [b], c);
  }

  lemma DoAppend(s: State, run: seq<Action>, a: Action)
    requires Together(s.agg)
    ensures Do(s, run + [a]) == Act(Do(s, run), a)
  {
    assert (run + [a])[..|run|] == run;
  }

  // ------------------------------------------------------------- reference: snapshots since the last dead event

  /** The event's key is FormatCacheKey of its own router and measurement, both colon-free, and some entity. */
  predicate WellKeyed(e: TelemetryEvent) {
    Free(':', e.routerID) && Free(':', e.measurement) && FormatCacheKey(e.routerID, e.measurement, "") <= e.cacheKey
  }

  function EntityOf(e: TelemetryEvent): string
    requires WellKeyed(e)
  {
    e.cacheKey[|FormatCacheKey(e.routerID, e.measurement, "")|..]
  }

  datatype Entity = Entity(routerID: string, measurement: string, id: string)

  function KeyOf(n: Entity): string {
    FormatCacheKey(n.routerID, n.measurement, n.id)
  }

  predicate ColonFree(n: Entity) {
    Free(':', n.routerID) && Free(':', n.measurement)
  }

  predicate IsAbout(e: TelemetryEvent, n: Entity)
    requires WellKeyed(e)
  {
    e.routerID == n.routerID && e.measurement == n.measurement && EntityOf(e) == n.id
  }

  lemma KeyNamesEntity(e: TelemetryEvent, n: Entity)
    requires WellKeyed(e) && ColonFree(n)
    ensures e.cacheKey == KeyOf(n) <==> IsAbout(e, n)
    ensures e.cacheKey != ""
  {
    var prefix := FormatCacheKey(e.routerID, e.measurement, "");
    var id := EntityOf(e);
    assert e.cacheKey == prefix + id == FormatCacheKey(e.routerID, e.measurement, id);
    assert |prefix| >= 7;
    if e.cacheKey == KeyOf(n) {
      CacheKeyInjective(e.routerID, e.measurement, id, n.routerID, n.measurement, n.id);
    }
  }

  /** Cache events are well keyed; lists are stored for colon-free router IDs. */
  predicate Proper(a: Action) {
    match a
    case Cache(e, _) => WellKeyed(e)
    case StoreList(k, _, _) => Free(':', k.routerID)
    case _ => true
  }

  predicate AllProper(run: seq<Action>) {
    forall i | 0 <= i < |run| :: Proper(run[i])
  }

  /** No event of the run makes the aggregator panic. */
  predicate Healthy(run: seq<Action>) {
    forall i | 0 <= i < |run| :: run[i].Feed? ==> !Panics(run[i].e)
  }

  /** The snapshots stored for an entity by the updates after its last dead event, oldest first. */
  function SinceDead(run: seq<Action>, n: Entity): seq<Data>
    requires AllProper(run)
  {
    if run == [] then [] else
      var init, a := run[..|run| - 1], run[|run| - 1];
      if Healthy(init) && a.Cache? && a.ok && IsAbout(a.e, n) then
        (match a.e.kind
         case EventUpdate => SinceDead(init, n) + (if a.e.cacheData.Some? then [a.e.cacheData.value] else [])
         case EventDead => []
         case EventOther => SinceDead(init, n))
      else SinceDead(init, n)
  }

  function Merge(ds: seq<Data>): Data {
    if ds == [] then map[] else Merge(ds[..|ds| - 1]) + ds[|ds| - 1]
  }

  lemma {:induction false} CrashedIffPanicked(run: seq<Action>)
    ensures Do(INITIAL, run).crashed <==> !Healthy(run)
  {
    if run != [] {
      CrashedIffPanicked(run[..|run| - 1]);
    }
  }

  /** One action on the entity's key. */
  lemma ActOnKey(s: State, a: Action, n: Entity)
    requires Together(s.agg) && !s.crashed && Proper(a) && ColonFree(n)
    ensures Get(Act(s, a).store, KeyOf(n)) ==
            if a.Cache? && a.ok && IsAbout(a.e, n) then
              (match a.e.kind
               case EventUpdate => Get(s.store, KeyOf(n)) + (if a.e.cacheData.Some? then a.e.cacheData.value else map[])
               case EventDead => map[]
               case EventOther => Get(s.store, KeyOf(n)))
            else Get(s.store, KeyOf(n))
  {
    match a
    case Cache(e, ok) =>
      KeyNamesEntity(e, n);
      ReadBack(s.store, e.cacheKey, if e.cacheData.Some? then e.cacheData.value else map[], KeyOf(n));
      assert Get(s.store, KeyOf(n)) + map[] == Get(s.store, KeyOf(n));
    case StoreList(k, data, ok) =>
      CacheKeyIsNoInactiveKey(n.routerID, n.measurement, n.id, k.routerID, k.category);
      ReadBack(s.store, InactiveKey(k.routerID, k.category), data, KeyOf(n));
    case _ =>
  }

  lemma MergeAppend(ds: seq<Data>, d: Data)
    ensures Merge(ds + [d]) == Merge(ds) + d
  {
    assert (ds + [d])[..|ds|] == ds;
  }

  /**
   After any run, with any failures, aggregator stores in between, and a crash at any point, an entity's
   key reads as the merge of its snapshots since its last dead event.
   */
  lemma {:induction false} StoreIsMergeSinceDead(run: seq<Action>, n: Entity)
    requires AllProper(run) && ColonFree(n)
    ensures Get(Do(INITIAL, run).store, KeyOf(n)) == Merge(SinceDead(run, n))
  {
    if run != [] {
      var init, a := run[..|run| - 1], run[|run| - 1];
      StoreIsMergeSinceDead(init, n);
      CrashedIffPanicked(init);
      if Healthy(init) {
        assert Proper(a);
        ActOnKey(Do(INITIAL, init), a, n);
        if a.Cache? && a.ok && IsAbout(a.e, n) && a.e.kind.EventUpdate? {
          if a.e.cacheData.Some? {
            MergeAppend(SinceDead(init, n), a.e.cacheData.value);
          } else {
            assert SinceDead(init, n) + [] == SinceDead(init, n);
            assert Merge(SinceDead(init, n)) + map[] == Merge(SinceDead(init, n));
          }
        }
      }
    }
  }

  /** HSET keeps the fields a snapshot lacks, so a merge is its last snapshot iff that has every earlier field. */
  lemma {:induction false} MergeKeys(ds: seq<Data>, k: string)
    ensures k in Merge(ds) <==> exists i | 0 <= i < |ds| :: k in ds[i]
  {
    if ds != [] {
      var init := ds[..|ds| - 1];
      MergeKeys(init, k);
      if i :| 0 <= i < |ds| && k in ds[i] {
        assert i < |init| ==> init[i] == ds[i];
      }
      if i :| 0 <= i < |init| && k in init[i] {
        assert ds[i] == init[i];
      }
    }
  }

  lemma MergeIsLastIff(ds: seq<Data>)
    requires ds != []
    ensures Merge(ds) == ds[|ds| - 1] <==> forall i | 0 <= i < |ds| :: ds[i].Keys <= ds[|ds| - 1].Keys
  {
    var last := ds[|ds| - 1];
    if Merge(ds) == last {
      forall i, k | 0 <= i < |ds| && k in ds[i] ensures k in last {
        MergeKeys(ds, k);
      }
    }
    if forall i | 0 <= i < |ds| :: ds[i].Keys <= last.Keys {
      forall k | k in Merge(ds) ensures k in last {
        MergeKeys(ds, k);
      }
      assert Merge(ds).Keys == last.Keys;
    }
  }

  /** Every snapshot of a measurement has the same fields, as each spec's ToCacheData does. */
  predicate FixedFields(run: seq<Action>, fields: map<string, set<string>>) {
    forall i | 0 <= i < |run| :: run[i].Cache? && run[i].e.cacheData.Some? ==>
      run[i].e.measurement in fields && run[i].e.cacheData.value.Keys == fields[run[i].e.measurement]
  }

  lemma {:induction false} SinceDeadFields(run: seq<Action>, n: Entity, fields: map<string, set<string>>)
    requires AllProper(run) && FixedFields(run, fields)
    ensures forall d | d in SinceDead(run, n) :: n.measurement in fields && d.Keys == fields[n.measurement]
  {
    if run != [] {
      SinceDeadFields(run[..|run| - 1], n, fields);
    }
  }

  /** With a fixed field set per measurement, a key reads as the last snapshot since the last dead event, if any. */
  lemma StoreIsLastSnapshot(run: seq<Action>, n: Entity, fields: map<string, set<string>>)
    requires AllProper(run) && ColonFree(n) && FixedFields(run, fields)
    ensures var ds := SinceDead(run, n);
            Get(Do(INITIAL, run).store, KeyOf(n)) == if ds == [] then map[] else ds[|ds| - 1]
  {
    StoreIsMergeSinceDead(run, n);
    SinceDeadFields(run, n, fields);
    if SinceDead(run, n) != [] {
      MergeIsLastIff(SinceDead(run, n));
    }
  }

  // ------------------------------------------------------------- the stored lists within a run

  /** The data stored for a key's list, oldest first. */
  function ListsOf(run: seq<Action>, k: Key): seq<Data> {
    if run == [] then [] else
      var init, a := run[..|run| - 1], run[|run| - 1];
      if Healthy(init) && a.StoreList? && a.ok && a.key == k then ListsOf(init, k) + [a.data] else ListsOf(init, k)
  }

  /** Every list is stored with all three of its fields, as recalculateAndCache does. */
  predicate WholeLists(run: seq<Action>) {
    forall i | 0 <= i < |run| :: run[i].StoreList? ==> run[i].data.Keys == LIST_FIELDS
  }

  /** One action on a list's key. */
  lemma ActOnList(s: State, a: Action, k: Key)
    requires Together(s.agg) && !s.crashed && Proper(a) && Free(':', k.routerID)
    ensures var key := InactiveKey(k.routerID, k.category);
            Get(Act(s, a).store, key) ==
            if a.StoreList? && a.ok && a.key == k then Get(s.store, key) + a.data else Get(s.store, key)
  {
    var key := InactiveKey(k.routerID, k.category);
    match a
    case Cache(e, ok) =>
      var prefix := FormatCacheKey(e.routerID, e.measurement, "");
      assert e.cacheKey == prefix + EntityOf(e) == FormatCacheKey(e.routerID, e.measurement, EntityOf(e));
      CacheKeyIsNoInactiveKey(e.routerID, e.measurement, EntityOf(e), k.routerID, k.category);
      ReadBack(s.store, e.cacheKey, if e.cacheData.Some? then e.cacheData.value else map[], key);
    case StoreList(k', data, ok) =>
      if InactiveKey(k'.routerID, k'.category) == key {
        InactiveKeyInjective(k'.routerID, k'.category, k.routerID, k.category);
      }
      ReadBack(s.store, InactiveKey(k'.routerID, k'.category), data, key);
    case _ =>
  }

  lemma {:induction false} ListKeyIsMerge(run: seq<Action>, k: Key)
    requires AllProper(run) && Free(':', k.routerID)
    ensures Get(Do(INITIAL, run).store, InactiveKey(k.routerID, k.category)) == Merge(ListsOf(run, k))
  {
    if run != [] {
      var init, a := run[..|run| - 1], run[|run| - 1];
      ListKeyIsMerge(init, k);
      CrashedIffPanicked(init);
      if Healthy(init) {
        assert Proper(a);
        ActOnList(Do(INITIAL, init), a, k);
        if a.StoreList? && a.ok && a.key == k {
          MergeAppend(ListsOf(init, k), a.data);
        }
      }
    }
  }

  lemma {:induction false} ListsAreWhole(run: seq<Action>, k: Key)
    requires WholeLists(run)
    ensures forall d | d in ListsOf(run, k) :: d.Keys == LIST_FIELDS
  {
    if run != [] {
      ListsAreWhole(run[..|run| - 1], k);
    }
  }

  /** A list's key reads as the last list stored for it, whatever else the run did, or as nothing. */
  lemma ListKeyIsLastStore(run: seq<Action>, k: Key)
    requires AllProper(run) && WholeLists(run) && Free(':', k.routerID)
    ensures var ds := ListsOf(run, k);
            Get(Do(INITIAL, run).store, InactiveKey(k.routerID, k.category)) == if ds == [] then map[] else ds[|ds| - 1]
  {
    ListKeyIsMerge(run, k);
    ListsAreWhole(run, k);
    if ListsOf(run, k) != [] {
      MergeIsLastIff(ListsOf(run, k));
    }
  }

  // ------------------------------------------------------------- the aggregator within a run

  /** The events that reached the aggregator. */
  function Fed(run: seq<Action>): (events: seq<TelemetryEvent>)
    ensures Calm(events)
  {
    if run == [] then [] else
      var init, a := run[..|run| - 1], run[|run| - 1];
      if Healthy(init) && a.Feed? && !Panics(a.e) then Fed(init) + [a.e] else Fed(init)
  }

  lemma {:induction false} AggregatorFoldsFed(run: seq<Action>)
    ensures Do(INITIAL, run).agg == Fold(Fed(run))
  {
    if run != [] {
      var init, a := run[..|run| - 1], run[|run| - 1];
      AggregatorFoldsFed(init);
      CrashedIffPanicked(init);
      if Healthy(init) && a.Feed? && !Panics(a.e) {
        assert Fed(run)[..|Fed(init)|] == Fed(init);
      }
    }
  }

  /** The events published in a run, up to a crash. */
  function PublishedOf(run: seq<Action>): seq<TelemetryEvent> {
    if run == [] then [] else
      var init, a := run[..|run| - 1], run[|run| - 1];
      if Healthy(init) && a.Publish? && a.ok then PublishedOf(init) + [a.e] else PublishedOf(init)
  }

  /** What subscribers have seen after any run: a message for each of them, in order. */
  lemma {:induction false} MessagesInOrder(run: seq<Action>)
    ensures var ms, events := Do(INITIAL, run).published, PublishedOf(run);
            |ms| == |events| && forall i | 0 <= i < |ms| :: IsMessageOf(ms[i], events[i])
  {
    if run != [] {
      var init, a := run[..|run| - 1], run[|run| - 1];
      MessagesInOrder(init);
      CrashedIffPanicked(init);
      if a.Publish? {
        PointAndMessage(a.e);
      }
    }
  }

  // ------------------------------------------------------------- the use case itself

  class TelemetryUseCase {
    const cache: RedisRepository
    const aggregator: InactiveAggregator
    var points: seq<Point>          // what the time-series writer has been given
    var published: seq<Message>
    ghost var spawned: seq<Key>     // recalculations started
    var crashed: bool

    ghost predicate Valid()
      reads this, aggregator
    {
      Together(aggregator.Abs())
    }

    ghost function Abs(): State
      reads this, aggregator, cache
    {
      State(aggregator.Abs(), cache.hashes, points, published, spawned, crashed)
    }

    constructor (cache: RedisRepository, listJson: seq<Data> -> string)
      requires cache.hashes == map[]
      ensures Valid() && fresh(aggregator) && this.cache == cache && Abs() == INITIAL
    {
      this.cache := cache;
      aggregator := new InactiveAggregator(cache, listJson);
      points, published, spawned, crashed := [], [], [], false;
    }

    /** Returns nil in every case, unless the aggregator panics. `run` is everything that has happened so far. */
    method ProcessEvent(event: Option<TelemetryEvent>, o: Outcomes, ghost run: seq<Action>)
      requires Valid() && !crashed && Abs() == Do(INITIAL, run)
      modifies this, aggregator, cache
      ensures event.None? ==> Abs() == old(Abs())
      ensures event.Some? && !Panics(event.value) ==>
                Valid() && Abs() == Handled(old(Abs()), event.value, o) == Do(INITIAL, run + ActionsOf(event.value, o))
      ensures crashed <==> event.Some? && Panics(event.value)
    {
      if event.Some? {
        Process(event.value, o);
        if !crashed {
          EffectsAreIndependent(INITIAL, run, event.value, o);
        }
      }
    }

    method Process(e: TelemetryEvent, o: Outcomes)
      requires Valid() && !crashed
      modifies this, aggregator, cache
      ensures !Panics(e) ==> Valid() && Abs() == Handled(old(Abs()), e, o)
      ensures crashed <==> Panics(e)
    {
      var outcome := aggregator.Update(e);
      if outcome == Panicked {
        crashed := true;
        return;
      }
      if outcome.Spawned? {
        spawned := spawned + [Key(e.routerID, outcome.category)];
      }
      Route(e, o);
    }

    /** The switch on the event's type; an unknown type is only logged. */
    method Route(e: TelemetryEvent, o: Outcomes)
      modifies this`points, this`published, cache
      ensures points == if e.kind.EventUpdate? then old(points) + [PointOf(e)] else old(points)
      ensures cache.hashes == if o.cache then Cached(old(cache.hashes), e) else old(cache.hashes)
      ensures published == if !e.kind.EventOther? && o.publish then old(published) + [MessageOf(e)] else old(published)
    {
      match e.kind {
        case EventUpdate => HandleUpdate(e, o);
        case EventDead => HandleDead(e, o);
        case EventOther =>
      }
    }

    method HandleUpdate(e: TelemetryEvent, o: Outcomes)
      requires e.kind.EventUpdate?
      modifies this`points, this`published, cache
      ensures points == old(points) + [PointOf(e)] && IsPointOf(points[|old(points)|], e)
      ensures cache.hashes == if o.cache then Cached(old(cache.hashes), e) else old(cache.hashes)
      ensures cache.hashes == if o.cache && e.cacheKey != "" && e.cacheData.Some?
                              then Put(old(cache.hashes), e.cacheKey, e.cacheData.value) else old(cache.hashes)
      ensures published == if o.publish then old(published) + [MessageOf(e)] else old(published)
    {
      PointAndMessage(e);
      var tags: Data := map["router" := e.routerID];
      var left := e.tags.Keys;
      while left != {}
        invariant left <= e.tags.Keys
        invariant tags == map["router" := e.routerID] + (map k | k in e.tags && k !in left :: e.tags[k])
        decreases left
      {
        var k :| k in left;
        left := left - {k};
        tags := tags[k := e.tags[k]];
      }
      assert (map k | k in e.tags && k !in left :: e.tags[k]) == e.tags;
      points := points + [Point.Point(e.measurement, tags, e.fields, e.timestamp)];
      if e.cacheKey != "" && e.cacheData.Some? {
        var failed := cache.SetSnapshot(e.cacheKey, e.cacheData.value, o.cache);
      }
      DoPublish(e, o.publish);
    }

    method HandleDead(e: TelemetryEvent, o: Outcomes)
      requires e.kind.EventDead?
      modifies this`published, cache
      ensures cache.hashes == if o.cache then Cached(old(cache.hashes), e) else old(cache.hashes)
      ensures cache.hashes == if o.cache && e.cacheKey != ""
                              then CacheStore.Delete(old(cache.hashes), e.cacheKey) else old(cache.hashes)
      ensures published == if o.publish then old(published) + [MessageOf(e)] else old(published)
    {
      if e.cacheKey != "" {
        var failed := cache.DeleteSnapshot(e.cacheKey, o.cache);
      }
      DoPublish(e, o.publish);
    }

    method DoPublish(e: TelemetryEvent, ok: bool)
      modifies this`published
      ensures published == if ok then old(published) + [MessageOf(e)] else old(published)
      ensures ok ==> IsMessageOf(published[|old(published)|], e)
    {
      var channel := FormatPubSubChannel(e.routerID);
      if ok {
        published := published +
          [Message(channel, e.routerID, e.measurement, e.kind, e.tags, e.fields, e.timestamp)];
      }
    }
  }
}
