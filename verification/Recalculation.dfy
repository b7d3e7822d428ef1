/**
 The goroutines Update starts (internal/usecase/aggregator.go:121-189). Each reads the maps under the
 read lock at some later moment, then stores the difference at some moment after that, outside the lock.
 A run interleaves events, these reads and these stores in any way.
 */
module Recalculation {
  import opened Domain
  import opened Wrappers
  import opened Parser
  import opened Aggregator

  datatype Key = Key(routerID: string, category: Category)

  datatype Phase =
    | Started
    | Read(list: map<string, Data>, at: nat)    // the difference it read, and which state that was
    | Finished

  /** spawnedAt is the index of the state the spawning event left. */
  datatype Goroutine = Goroutine(key: Key, spawnedAt: nat, phase: Phase)

  /** What SetSnapshot last stored for a key: the list, the state it was read from, and the goroutine's origin. */
  datatype Stored = Stored(list: map<string, Data>, count: int, at: nat, spawnedAt: nat)

  /** history holds every state of the maps; touched, the state after the last event that concerned a key. */
  datatype World = World(
    history: seq<Agg>,
    goroutines: seq<Goroutine>,
    stored: map<Key, Stored>,
    touched: map<Key, nat>)

  const START := World([EMPTY], [], map[], map[])

  datatype Label =
    | Event(e: TelemetryEvent)
    | ReadMaps(g: nat)
    | Store(g: nat, ok: bool)

  ghost predicate Shaped(w: World) {
    w.history != [] && forall i | 0 <= i < |w.history| :: Together(w.history[i])
  }

  function Now(w: World): Agg
    requires w.history != []
  {
    w.history[|w.history| - 1]
  }

  predicate Enabled(w: World, l: Label) {
    match l
    case Event(e) => !Panics(e)
    case ReadMaps(g) => g < |w.goroutines| && w.goroutines[g].phase.Started?
    case Store(g, _) => g < |w.goroutines| && w.goroutines[g].phase.Read?
  }

  function Difference(a: Agg, k: Key): map<string, Data> {
    Inactive(a, k.routerID, k.category)
  }

  function Step(w: World, l: Label): World
    requires Shaped(w) && Enabled(w, l)
  {
    match l
    case Event(e) =>
      var w' := w.(history := w.history + [Updated(Now(w), e)]);
      (match Spawns(e)
       case None => w'
       case Some(c) =>
         var k := Key(e.routerID, c);
         w'.(goroutines := w.goroutines + [Goroutine(k, |w.history|, Started)], touched := w.touched[k := |w.history|]))
    case ReadMaps(g) =>
      var k := w.goroutines[g].key;
      w.(goroutines := w.goroutines[g := w.goroutines[g].(phase := Read(Difference(Now(w), k), |w.history| - 1))])
    case Store(g, ok) =>
      var Goroutine(k, spawnedAt, Read(list, at)) := w.goroutines[g];
      var w' := w.(goroutines := w.goroutines[g := w.goroutines[g].(phase := Finished)]);
      if ok then w'.(stored := w.stored[k := Stored(list, |list|, at, spawnedAt)]) else w'
  }

  ghost predicate IsRun(w: World, labels: seq<Label>)
    requires Shaped(w)
    decreases labels
  {
    labels == [] || (Enabled(w, labels[0]) && (StepKeepsShape(w, labels[0]); IsRun(Step(w, labels[0]), labels[1..])))
  }

  function Run(w: World, labels: seq<Label>): (w': World)
    requires Shaped(w) && IsRun(w, labels)
    ensures Shaped(w')
    decreases labels
  {
    if labels == [] then w else
      StepKeepsShape(w, labels[0]);
      Run(Step(w, labels[0]), labels[1..])
  }

  lemma StepKeepsShape(w: World, l: Label)
    requires Shaped(w) && Enabled(w, l)
    ensures Shaped(Step(w, l))
  {
  }

  // ------------------------------------------------------------- every list is a true difference

  /** A list read or stored is the difference in the state it names, and no older than its spawning event. */
  ghost predicate Truthful(w: World) {
    && Shaped(w)
    && (forall g | 0 <= g < |w.goroutines| ::
          w.goroutines[g].spawnedAt < |w.history| && TruthfulRead(w, w.goroutines[g]))
    && (forall k | k in w.stored :: TruthfulStored(w, k, w.stored[k]))
  }

  ghost predicate TruthfulRead(w: World, g: Goroutine) {
    g.phase.Read? ==>
      g.spawnedAt <= g.phase.at < |w.history| && g.phase.list == Difference(w.history[g.phase.at], g.key)
  }

  ghost predicate TruthfulStored(w: World, k: Key, s: Stored) {
    && s.spawnedAt <= s.at < |w.history|
    && s.list == Difference(w.history[s.at], k)
    && s.count == |Totals(w.history[s.at], k.routerID, k.category)|
       - |Totals(w.history[s.at], k.routerID, k.category).Keys * Actives(w.history[s.at], k.routerID, k.category)|
  }

  /** More history makes nothing untrue. */
  lemma LongerHistory(w: World, w': World)
    requires Shaped(w) && Shaped(w') && |w.history| <= |w'.history|
    requires forall i | 0 <= i < |w.history| :: w'.history[i] == w.history[i]
    ensures forall g | TruthfulRead(w, g) :: TruthfulRead(w', g)
    ensures forall k, s | TruthfulStored(w, k, s) :: TruthfulStored(w', k, s)
  {
  }

  lemma StepKeepsTruth(w: World, l: Label)
    requires Truthful(w) && Enabled(w, l)
    ensures Truthful(Step(w, l))
  {
    StepKeepsShape(w, l);
    LongerHistory(w, Step(w, l));
    match l
    case Event(e) => EventKeepsTruth(w, e);
    case ReadMaps(g) => assert TruthfulRead(w, w.goroutines[g]);
    case Store(g, ok) => StoreKeepsTruth(w, g, ok);
  }

  lemma EventKeepsTruth(w: World, e: TelemetryEvent)
    requires Truthful(w) && !Panics(e)
    ensures Truthful(Step(w, Event(e)))
  {
    StepKeepsShape(w, Event(e));
    LongerHistory(w, Step(w, Event(e)));
  }

  lemma StoreKeepsTruth(w: World, g: nat, ok: bool)
    requires Truthful(w) && Enabled(w, Store(g, ok))
    ensures Truthful(Step(w, Store(g, ok)))
  {
    var k, r := w.goroutines[g].key, w.goroutines[g].phase;
    assert TruthfulRead(w, w.goroutines[g]);
    InactiveCount(w.history[r.at], k.routerID, k.category);
    LongerHistory(w, Step(w, Store(g, ok)));
  }

  /**
   In every run, whatever was stored for a key is the difference of a state at or after the event that
   spawned its recalculation, counted by its own length.
   */
  lemma {:induction false} EveryListIsATrueDifference(w: World, labels: seq<Label>)
    requires Truthful(w) && IsRun(w, labels)
    ensures Truthful(Run(w, labels))
    decreases labels
  {
    if labels != [] {
      StepKeepsTruth(w, labels[0]);
      EveryListIsATrueDifference(Step(w, labels[0]), labels[1..]);
    }
  }

  // ------------------------------------------------------------- when the stored list is the current one

  /** A store that succeeds and does not put an older read over a newer one. */
  predicate InOrder(w: World, l: Label) {
    l.Store? && l.g < |w.goroutines| && w.goroutines[l.g].phase.Read? ==>
      var g := w.goroutines[l.g];
      l.ok && (g.key in w.stored ==> w.stored[g.key].at <= g.phase.at)
  }

  ghost predicate IsOrderedRun(w: World, labels: seq<Label>)
    requires Shaped(w)
    decreases labels
  {
    labels == [] ||
    (Enabled(w, labels[0]) && InOrder(w, labels[0]) &&
     (StepKeepsShape(w, labels[0]); IsOrderedRun(Step(w, labels[0]), labels[1..])))
  }

  predicate Pending(w: World, k: Key) {
    exists g | 0 <= g < |w.goroutines| :: w.goroutines[g].key == k && !w.goroutines[g].phase.Finished?
  }

  /** g is the recalculation for the last event on k, and it is under way. */
  predicate Awaited(w: World, k: Key, g: nat)
    requires k in w.touched
  {
    && g < |w.goroutines| && w.goroutines[g].key == k
    && w.goroutines[g].spawnedAt == w.touched[k] && !w.goroutines[g].phase.Finished?
  }

  /** The recalculation for the last event on k is under way, or something at least as new is stored. */
  ghost predicate CaughtUp(w: World, k: Key) {
    k in w.touched ==>
      || (exists g :: Awaited(w, k, g))
      || (k in w.stored && w.touched[k] <= w.stored[k].at)
  }

  /** Nothing has changed k's difference since it was last touched. */
  ghost predicate Settled(w: World, k: Key) {
    k in w.touched ==>
      w.touched[k] < |w.history| &&
      forall i | w.touched[k] <= i < |w.history| :: Difference(w.history[i], k) == Difference(Now(w), k)
  }

  ghost predicate Fresh(w: World) {
    Truthful(w) && forall k :: CaughtUp(w, k) && Settled(w, k)
  }

  /** An event changes only the difference it spawns a recalculation for. */
  lemma OnlySpawnedChanges(a: Agg, e: TelemetryEvent, k: Key)
    requires Together(a) && !Panics(e)
    requires !(e.routerID == k.routerID && Spawns(e) == Some(k.category))
    ensures Difference(Updated(a, e), k) == Difference(a, k)
  {
    if IsChange(e) {
      EnsureRouterKeeps(a, e.routerID, k.routerID, k.category);
      ChangedTotals(EnsureRouter(a, e.routerID), e, k.routerID, k.category);
      ChangedActives(EnsureRouter(a, e.routerID), e, k.routerID, k.category);
    }
  }

  lemma StepKeepsSettled(w: World, l: Label, k: Key)
    requires Shaped(w) && Enabled(w, l) && Settled(w, k)
    ensures Settled(Step(w, l), k)
  {
    if l.Event? && !(l.e.routerID == k.routerID && Spawns(l.e) == Some(k.category)) {
      var w' := Step(w, l);
      assert |w'.history| == |w.history| + 1 && (k in w.touched <==> k in w'.touched);
      if k in w.touched {
        OnlySpawnedChanges(Now(w), l.e, k);
        assert w'.touched[k] == w.touched[k] && Difference(Now(w'), k) == Difference(Now(w), k);
        forall i | w.touched[k] <= i < |w'.history|
          ensures Difference(w'.history[i], k) == Difference(Now(w'), k)
        {
          if i < |w.history| {
            assert w'.history[i] == w.history[i];
          }
        }
      }
    }
  }

  lemma StepKeepsCaughtUp(w: World, l: Label, k: Key)
    requires Truthful(w) && Enabled(w, l) && InOrder(w, l) && CaughtUp(w, k)
    ensures CaughtUp(Step(w, l), k)
  {
    if l.Event? {
      EventKeepsCaughtUp(w, l.e, k);
    } else if k in w.touched {
      assert Step(w, l).touched == w.touched;
      if g :| Awaited(w, k, g) {
        AwaitedStepKeeps(w, l, k, g);
      } else {
        NewStoreStays(w, l, k);
      }
    }
  }

  lemma EventKeepsCaughtUp(w: World, e: TelemetryEvent, k: Key)
    requires Truthful(w) && !Panics(e) && CaughtUp(w, k)
    ensures CaughtUp(Step(w, Event(e)), k)
  {
    var w' := Step(w, Event(e));
    if e.routerID == k.routerID && Spawns(e) == Some(k.category) {
      assert Awaited(w', k, |w.goroutines|);
    } else if k in w.touched {
      assert w'.touched[k] == w.touched[k] && w'.stored == w.stored;
      if g :| Awaited(w, k, g) {
        assert Awaited(w', k, g);
      }
    }
  }

  lemma NewStoreStays(w: World, l: Label, k: Key)
    requires Truthful(w) && Enabled(w, l) && InOrder(w, l) && !l.Event?
    requires k in w.touched && k in w.stored && w.touched[k] <= w.stored[k].at
    ensures var w' := Step(w, l); k in w'.touched && k in w'.stored && w'.touched[k] <= w'.stored[k].at
  {
  }

  lemma AwaitedStepKeeps(w: World, l: Label, k: Key, g: nat)
    requires Truthful(w) && Enabled(w, l) && InOrder(w, l) && k in w.touched && Awaited(w, k, g)
    requires k in Step(w, l).touched && Step(w, l).touched[k] == w.touched[k]
    ensures CaughtUp(Step(w, l), k)
  {
    var w' := Step(w, l);
    if l.Store? && l.g == g {
      assert TruthfulRead(w, w.goroutines[g]);
      assert k in w'.stored && w'.touched[k] <= w'.stored[k].at;
    } else {
      assert Awaited(w', k, g);
    }
  }

  lemma {:induction false} OrderedRunStaysFresh(w: World, labels: seq<Label>)
    requires Fresh(w) && IsOrderedRun(w, labels)
    ensures IsRun(w, labels) && Fresh(Run(w, labels))
    decreases labels
  {
    if labels != [] {
      StepKeepsTruth(w, labels[0]);
      forall k ensures CaughtUp(Step(w, labels[0]), k) && Settled(Step(w, labels[0]), k) {
        StepKeepsSettled(w, labels[0], k);
        StepKeepsCaughtUp(w, labels[0], k);
      }
      OrderedRunStaysFresh(Step(w, labels[0]), labels[1..]);
    }
  }

  /**
   If every store succeeds and a key's stores happen in the order of their reads, then whenever no
   recalculation for a touched key is under way, its stored list is the current difference.
   */
  lemma OrderedStoresLeaveTheCurrentList(labels: seq<Label>, k: Key)
    requires IsOrderedRun(START, labels)
    ensures IsRun(START, labels)
    ensures var w := Run(START, labels);
            k in w.touched && !Pending(w, k) ==> k in w.stored && w.stored[k].list == Difference(Now(w), k)
  {
    OrderedRunStaysFresh(START, labels);
    var w := Run(START, labels);
    assert CaughtUp(w, k) && Settled(w, k);
    if k in w.touched && !Pending(w, k) {
      assert TruthfulStored(w, k, w.stored[k]);
    }
  }

  // ------------------------------------------------------------- exactly when the stored list will be the current one

  /** e may change k's difference; it starts a recalculation of k. */
  predicate Concerns(e: TelemetryEvent, k: Key) {
    e.routerID == k.routerID && Spawns(e) == Some(k.category)
  }

  /** The step is no event of k, and no failing store of k. */
  predicate Quiet(w: World, l: Label, k: Key) {
    match l
    case Event(e) => !Concerns(e, k)
    case ReadMaps(_) => true
    case Store(g, ok) => g < |w.goroutines| && w.goroutines[g].key == k ==> ok
  }

  ghost predicate IsQuietRun(w: World, labels: seq<Label>, k: Key)
    requires Shaped(w)
    decreases labels
  {
    labels == [] ||
    (Enabled(w, labels[0]) && Quiet(w, labels[0], k) &&
     (StepKeepsShape(w, labels[0]); IsQuietRun(Step(w, labels[0]), labels[1..], k)))
  }

  lemma {:induction false} QuietRunIsRun(w: World, labels: seq<Label>, k: Key)
    requires Shaped(w) && IsQuietRun(w, labels, k)
    ensures IsRun(w, labels)
    decreases labels
  {
    if labels != [] {
      QuietRunIsRun(Step(w, labels[0]), labels[1..], k);
    }
  }

  ghost predicate Current(w: World, k: Key)
    requires Shaped(w)
  {
    k in w.stored && w.stored[k].list == Difference(Now(w), k)
  }

  /** g has read a difference of k that has changed since, and has yet to store it. */
  ghost predicate Outdated(w: World, k: Key, g: nat)
    requires Shaped(w)
  {
    && g < |w.goroutines| && w.goroutines[g].key == k && w.goroutines[g].phase.Read?
    && w.goroutines[g].phase.list != Difference(Now(w), k)
  }

  /** However things go on without a further event or a failing store of k, they leave k's current list. */
  ghost predicate WillBeCurrent(w: World, k: Key)
    requires Shaped(w)
  {
    forall labels | IsQuietRun(w, labels, k) :: EndsCurrent(w, labels, k)
  }

  ghost predicate EndsCurrent(w: World, labels: seq<Label>, k: Key)
    requires Shaped(w) && IsQuietRun(w, labels, k)
  {
    QuietRunIsRun(w, labels, k);
    Pending(Run(w, labels), k) || Current(Run(w, labels), k)
  }

  ghost predicate NoneOutdated(w: World, k: Key)
    requires Shaped(w)
  {
    && (forall g: nat :: !Outdated(w, k, g))
    && (Pending(w, k) || Current(w, k))
  }

  lemma QuietEventKeeps(w: World, e: TelemetryEvent, k: Key)
    requires Shaped(w) && NoneOutdated(w, k) && !Panics(e) && !Concerns(e, k)
    ensures Shaped(Step(w, Event(e))) && NoneOutdated(Step(w, Event(e)), k)
  {
    StepKeepsShape(w, Event(e));
    OnlySpawnedChanges(Now(w), e, k);
    var w' := Step(w, Event(e));
    assert Difference(Now(w'), k) == Difference(Now(w), k) && w'.stored == w.stored;
    forall g: nat ensures !Outdated(w', k, g) {
      assert !Outdated(w, k, g);
    }
    if g :| 0 <= g < |w.goroutines| && w.goroutines[g].key == k && !w.goroutines[g].phase.Finished? {
      assert w'.goroutines[g] == w.goroutines[g];
    }
  }

  lemma QuietReadKeeps(w: World, g: nat, k: Key)
    requires Shaped(w) && NoneOutdated(w, k) && Enabled(w, ReadMaps(g))
    ensures Shaped(Step(w, ReadMaps(g))) && NoneOutdated(Step(w, ReadMaps(g)), k)
  {
    StepKeepsShape(w, ReadMaps(g));
    var w' := Step(w, ReadMaps(g));
    forall h: nat ensures !Outdated(w', k, h) {
      assert !Outdated(w, k, h);
    }
    if h :| 0 <= h < |w.goroutines| && w.goroutines[h].key == k && !w.goroutines[h].phase.Finished? {
      assert w'.goroutines[h].key == k && !w'.goroutines[h].phase.Finished?;
    }
  }

  lemma QuietStoreKeeps(w: World, g: nat, ok: bool, k: Key)
    requires Shaped(w) && NoneOutdated(w, k) && Enabled(w, Store(g, ok)) && Quiet(w, Store(g, ok), k)
    ensures Shaped(Step(w, Store(g, ok))) && NoneOutdated(Step(w, Store(g, ok)), k)
  {
    StepKeepsShape(w, Store(g, ok));
    var w' := Step(w, Store(g, ok));
    forall h: nat ensures !Outdated(w', k, h) {
      assert !Outdated(w, k, h);
    }
    if w.goroutines[g].key == k {
      assert !Outdated(w, k, g);
      assert Current(w', k);
    } else if h :| 0 <= h < |w.goroutines| && w.goroutines[h].key == k && !w.goroutines[h].phase.Finished? {
      assert w'.goroutines[h] == w.goroutines[h];
    } else {
      assert Current(w, k) && Current(w', k);
    }
  }

  lemma {:induction false} QuietRunKeeps(w: World, labels: seq<Label>, k: Key)
    requires Shaped(w) && NoneOutdated(w, k) && IsQuietRun(w, labels, k)
    ensures IsRun(w, labels) && NoneOutdated(Run(w, labels), k)
    decreases labels
  {
    if labels != [] {
      match labels[0] {
        case Event(e) => QuietEventKeeps(w, e, k);
        case ReadMaps(g) => QuietReadKeeps(w, g, k);
        case Store(g, ok) => QuietStoreKeeps(w, g, ok, k);
      }
      QuietRunKeeps(Step(w, labels[0]), labels[1..], k);
    }
  }

  // ------------------------------------------------------------- an outdated list stored last

  /** Only goroutines go on, and every store succeeds. */
  predicate Finishing(labels: seq<Label>) {
    forall i | 0 <= i < |labels| :: !labels[i].Event? && (labels[i].Store? ==> labels[i].ok)
  }

  lemma {:induction false} FinishingIsQuiet(w: World, labels: seq<Label>, k: Key)
    requires Shaped(w) && IsRun(w, labels) && Finishing(labels)
    ensures IsQuietRun(w, labels, k)
    decreases labels
  {
    if labels != [] {
      StepKeepsShape(w, labels[0]);
      FinishingIsQuiet(Step(w, labels[0]), labels[1..], k);
    }
  }

  lemma Prepend(w: World, l: Label, w': World, rest: seq<Label>) returns (labels: seq<Label>)
    requires Shaped(w) && Enabled(w, l) && w' == Step(w, l) && Shaped(w') && IsRun(w', rest)
    ensures labels == [l] + rest && IsRun(w, labels) && Run(w, labels) == Run(w', rest)
    ensures AllStored(rest) && (l.Store? ==> l.ok) ==> AllStored(labels)
  {
    labels := [l] + rest;
    assert labels[1..] == rest;
  }

  /** How far goroutine n is from its end. */
  function Left(w: World, n: nat): nat {
    if n >= |w.goroutines| || w.goroutines[n].phase.Finished? then 0
    else if w.goroutines[n].phase.Read? then 1
    else 2
  }

  /** Every other recalculation, from the n-th on, finishes, then g stores its list over theirs. */
  lemma {:induction false} StoreLast(w: World, g: nat, n: nat) returns (labels: seq<Label>)
    requires Shaped(w) && g < |w.goroutines| && w.goroutines[g].phase.Read? && n <= |w.goroutines|
    requires forall j | 0 <= j < n && j != g :: w.goroutines[j].phase.Finished?
    ensures IsRun(w, labels) && Finishing(labels)
    ensures var w', k := Run(w, labels), w.goroutines[g].key;
            && w'.history == w.history && !Pending(w', k)
            && k in w'.stored && w'.stored[k].list == w.goroutines[g].phase.list
    decreases |w.goroutines| - n, Left(w, n)
  {
    if n < |w.goroutines| && (n == g || w.goroutines[n].phase.Finished?) {
      labels := StoreLast(w, g, n + 1);
    } else {
      var l := if n == |w.goroutines| then Store(g, true)
               else if w.goroutines[n].phase.Started? then ReadMaps(n)
               else Store(n, true);
      StepKeepsShape(w, l);
      var w' := Step(w, l);
      labels := [];
      if n < |w.goroutines| {
        labels := StoreLast(w', g, n);
      }
      labels := Prepend(w, l, w', labels);
    }
  }

  /**
   In any state of any run: k's stored list is sure to be the current one, once nothing is under way for k
   and provided its stores succeed, exactly when no recalculation of k holds an outdated difference and one
   is under way or the stored list is current already.
   */
  lemma ListWillBeCurrentIffNoneOutdated(w: World, k: Key)
    requires Shaped(w)
    ensures WillBeCurrent(w, k) <==> NoneOutdated(w, k)
  {
    if NoneOutdated(w, k) {
      forall labels | IsQuietRun(w, labels, k) ensures EndsCurrent(w, labels, k) {
        QuietRunKeeps(w, labels, k);
      }
    } else if g: nat :| Outdated(w, k, g) {
      var labels := StoreLast(w, g, 0);
      FinishingIsQuiet(w, labels, k);
      assert !EndsCurrent(w, labels, k);
    } else {
      assert !EndsCurrent(w, [], k);
    }
  }

  // ------------------------------------------------------------- two events are enough

  lemma EventSpawns(w: World, e: TelemetryEvent, k: Key) returns (w': World)
    requires Shaped(w) && !Panics(e) && Concerns(e, k)
    ensures w' == Step(w, Event(e)) && Shaped(w') && Now(w') == Updated(Now(w), e)
    ensures w'.goroutines == w.goroutines + [Goroutine(k, |w.history|, Started)]
  {
    StepKeepsShape(w, Event(e));
    w' := Step(w, Event(e));
  }

  lemma ReadStep(w: World, g: nat) returns (w': World)
    requires Shaped(w) && Enabled(w, ReadMaps(g))
    ensures w' == Step(w, ReadMaps(g)) && Shaped(w') && w'.history == w.history
    ensures |w'.goroutines| == |w.goroutines| && w'.goroutines[g].key == w.goroutines[g].key
    ensures w'.goroutines[g].phase.Read? && w'.goroutines[g].phase.list == Difference(Now(w), w.goroutines[g].key)
  {
    StepKeepsShape(w, ReadMaps(g));
    w' := Step(w, ReadMaps(g));
  }

  predicate AllStored(labels: seq<Label>) {
    forall i | 0 <= i < |labels| :: labels[i].Store? ==> labels[i].ok
  }

  /** g has read; an event of k comes, and everyone finishes, g last. */
  lemma EventThenStore(w: World, e: TelemetryEvent, k: Key, g: nat) returns (labels: seq<Label>)
    requires Shaped(w) && !Panics(e) && Concerns(e, k)
    requires g < |w.goroutines| && w.goroutines[g].key == k && w.goroutines[g].phase.Read?
    ensures IsRun(w, labels) && AllStored(labels)
    ensures var w' := Run(w, labels);
            && Now(w') == Updated(Now(w), e) && !Pending(w', k)
            && k in w'.stored && w'.stored[k].list == w.goroutines[g].phase.list
  {
    var w' := EventSpawns(w, e, k);
    labels := StoreLast(w', g, 0);
    labels := Prepend(w, Event(e), w', labels);
  }

  lemma ReadThenEvent(w: World, e: TelemetryEvent, k: Key, g: nat) returns (labels: seq<Label>)
    requires Shaped(w) && !Panics(e) && Concerns(e, k)
    requires g < |w.goroutines| && w.goroutines[g].key == k && w.goroutines[g].phase.Started?
    ensures IsRun(w, labels) && AllStored(labels)
    ensures var w' := Run(w, labels);
            && Now(w') == Updated(Now(w), e) && !Pending(w', k)
            && k in w'.stored && w'.stored[k].list == Difference(Now(w), k)
  {
    var w' := ReadStep(w, g);
    assert Now(w') == Now(w) && w'.goroutines[g].phase.list == Difference(Now(w), k);
    labels := EventThenStore(w', e, k, g);
    labels := Prepend(w, ReadMaps(g), w', labels);
  }

  /**
   From any state, any two events of k of which the second changes its difference can leave the first one's
   list stored for good, though every store succeeds: its recalculation reads between them and stores last.
   */
  lemma StaleListCanStay(w: World, e1: TelemetryEvent, e2: TelemetryEvent, k: Key) returns (labels: seq<Label>)
    requires Shaped(w) && !Panics(e1) && !Panics(e2) && Concerns(e1, k) && Concerns(e2, k)
    requires Difference(Updated(Now(w), e1), k) != Difference(Updated(Updated(Now(w), e1), e2), k)
    ensures IsRun(w, labels) && AllStored(labels)
    ensures var w' := Run(w, labels);
            && Now(w') == Updated(Updated(Now(w), e1), e2)
            && !Pending(w', k) && !Current(w', k)
            && k in w'.stored && w'.stored[k].list == Difference(Updated(Now(w), e1), k)
  {
    var g := |w.goroutines|;
    var w' := EventSpawns(w, e1, k);
    labels := ReadThenEvent(w', e2, k, g);
    labels := Prepend(w, Event(e1), w', labels);
  }

  /** An update as PPPSecretSpec sends it: its tags and its snapshot carry the same name. */
  predicate ShippedSecret(e: TelemetryEvent) {
    && e.measurement == "ppp_secret" && e.kind.EventUpdate?
    && e.tags.Keys == {"name", "service", "profile"} && e.cacheData.Some?
    && e.cacheData.value.Keys ==
       {"id", "name", "service", "caller_id", "profile", "local_address", "remote_address", "routes",
        "limit_bytes_in", "limit_bytes_out", "disabled", "comment", "timestamp"}
    && e.cacheData.value["name"] == e.tags["name"]
  }

  lemma SecretChange(a: Agg, e: TelemetryEvent, u: string)
    requires Together(a) && ShippedSecret(e) && e.tags["name"] == u && u !in Actives(a, e.routerID, Ppp)
    ensures !Panics(e) && Concerns(e, Key(e.routerID, Ppp)) && u !in Actives(Updated(a, e), e.routerID, Ppp)
    ensures var d := Difference(Updated(a, e), Key(e.routerID, Ppp)); u in d && d[u] == e.cacheData.value
  {
    assert FeedOf(e.measurement) == Configured(Ppp);
    assert OnTotal(e, e.routerID, Ppp, u);
    UpdateTotal(a, e, e.routerID, Ppp, u);
    UpdateActive(a, e, e.routerID, Ppp, u);
  }

  /** So two updates of one secret, of a user who is not online, can leave the older snapshot in the stored list. */
  lemma SecretUpdateCanBeLost(w: World, e1: TelemetryEvent, e2: TelemetryEvent, u: string) returns (labels: seq<Label>)
    requires Shaped(w) && ShippedSecret(e1) && ShippedSecret(e2) && e1.routerID == e2.routerID
    requires e1.tags["name"] == e2.tags["name"] == u && u !in Actives(Now(w), e1.routerID, Ppp)
    requires e1.cacheData != e2.cacheData
    ensures IsRun(w, labels) && AllStored(labels)
    ensures var w', k := Run(w, labels), Key(e1.routerID, Ppp);
            && !Pending(w', k) && k in w'.stored
            && u in w'.stored[k].list && w'.stored[k].list[u] == e1.cacheData.value
            && u in Difference(Now(w'), k) && Difference(Now(w'), k)[u] == e2.cacheData.value
  {
    SecretChange(Now(w), e1, u);
    SecretChange(Updated(Now(w), e1), e2, u);
    labels := StaleListCanStay(w, e1, e2, Key(e1.routerID, Ppp));
  }
}
