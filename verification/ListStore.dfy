/**
 The aggregator's lists in Redis (internal/usecase/aggregator.go:121-189): a run of the process, with its entity
 snapshots, points and messages, carries the recalculations of Recalculation, and each aggregator key holds the
 encoding of the list that those have stored last.
 */
module ListStore {
  import opened Wrappers
  import opened Text
  import opened Domain
  import opened Orders
  import opened Parser
  import opened Aggregator
  import opened CacheStore
  import opened Telemetry
  import opened Recalculation

  type Json = seq<Data> -> string

  /** What StoreSnapshot stores for a list, with any timestamp. */
  ghost predicate Encodes(json: Json, list: map<string, Data>, data: Data) {
    data.Keys == LIST_FIELDS && exists payload :: EncodesAs(json, list, payload, data)
  }

  ghost predicate EncodesAs(json: Json, list: map<string, Data>, payload: seq<Data>, data: Data)
    requires data.Keys == LIST_FIELDS
  {
    IsListing(payload, list) && data["list"] == json(payload) && data["count"] == Decimal(|payload|)
  }

  /** The action is what the step does in the process. */
  ghost predicate Does(w: World, l: Label, a: Action, json: Json)
    requires Enabled(w, l)
  {
    match l
    case Event(e) => a == Feed(e)
    case ReadMaps(_) => false
    case Store(g, ok) =>
      a.StoreList? && a.ok == ok && a.key == w.goroutines[g].key && Encodes(json, w.goroutines[g].phase.list, a.data)
  }

  /** What the recalculations take no part in. */
  predicate Aside(a: Action) {
    !a.Feed? && !a.StoreList?
  }

  /** The process's run does the steps in their order, with other actions in between; reading the maps shows nowhere. */
  ghost predicate Carries(w: World, labels: seq<Label>, run: seq<Action>, json: Json)
    requires Shaped(w)
    decreases |labels| + |run|
  {
    || (labels == [] && run == [])
    || (run != [] && Aside(run[0]) && Carries(w, labels, run[1..], json))
    || (labels != [] && Enabled(w, labels[0]) &&
        (StepKeepsShape(w, labels[0]);
         var w' := Step(w, labels[0]);
         || (labels[0].ReadMaps? && Carries(w', labels[1..], run, json))
         || (run != [] && Does(w, labels[0], run[0], json) && Carries(w', labels[1..], run[1..], json))))
  }

  /** The key holds the list that is stored for k, or nothing. */
  ghost predicate KeyHolds(w: World, s: State, k: Key, json: Json) {
    var data := Get(s.store, InactiveKey(k.routerID, k.category));
    if k in w.stored then Encodes(json, w.stored[k].list, data) else data == map[]
  }

  ghost predicate InSync(w: World, s: State, json: Json) {
    && Shaped(w) && !s.crashed && s.agg == Now(w)
    && forall k: Key | Free(':', k.routerID) :: KeyHolds(w, s, k, json)
  }

  lemma AnyListing(list: map<string, Data>) returns (payload: seq<Data>)
    ensures IsListing(payload, list)
  {
    var order := [];
    if list != map[] {
      var k :| k in list;
      order := OrderEndingIn(list, k);
    }
    payload := Values(order, list);
    assert IsOrderOf(order, list);
  }

  lemma SomeEncoding(json: Json, list: map<string, Data>) returns (data: Data)
    ensures Encodes(json, list, data)
  {
    var payload := AnyListing(list);
    data := map["list" := json(payload), "count" := Decimal(|payload|), "timestamp" := ""];
    assert EncodesAs(json, list, payload, data);
  }

  /** Every run of the recalculations is carried by a run of the process. */
  lemma {:induction false} EveryRunIsCarried(w: World, labels: seq<Label>, json: Json) returns (run: seq<Action>)
    requires Shaped(w) && IsRun(w, labels)
    ensures Carries(w, labels, run, json)
    decreases labels
  {
    if labels == [] {
      run := [];
    } else {
      StepKeepsShape(w, labels[0]);
      run := EveryRunIsCarried(Step(w, labels[0]), labels[1..], json);
      if !labels[0].ReadMaps? {
        var a := SomeAction(w, labels[0], json);
        assert ([a] + run)[1..] == run;
        run := [a] + run;
      }
    }
  }

  lemma SomeAction(w: World, l: Label, json: Json) returns (a: Action)
    requires Enabled(w, l) && !l.ReadMaps?
    ensures Does(w, l, a, json)
  {
    match l
    case Event(e) => a := Feed(e);
    case Store(g, ok) =>
      var data := SomeEncoding(json, w.goroutines[g].phase.list);
      a := StoreList(w.goroutines[g].key, data, ok);
  }

  // ------------------------------------------------------------- one action

  lemma AsideKeepsSync(w: World, s: State, a: Action, json: Json)
    requires InSync(w, s, json) && Aside(a) && Proper(a)
    ensures InSync(w, Act(s, a), json)
  {
    forall k: Key | Free(':', k.routerID) ensures KeyHolds(w, Act(s, a), k, json) {
      ActOnList(s, a, k);
    }
  }

  lemma ReadKeepsSync(w: World, s: State, g: nat, json: Json)
    requires InSync(w, s, json) && Enabled(w, ReadMaps(g))
    ensures InSync(Step(w, ReadMaps(g)), s, json)
  {
    StepKeepsShape(w, ReadMaps(g));
    var w' := Step(w, ReadMaps(g));
    forall k: Key | Free(':', k.routerID) ensures KeyHolds(w', s, k, json) {
      assert KeyHolds(w, s, k, json);
    }
  }

  lemma EventKeepsSync(w: World, s: State, e: TelemetryEvent, json: Json)
    requires InSync(w, s, json) && !Panics(e)
    ensures InSync(Step(w, Event(e)), Act(s, Feed(e)), json)
  {
    StepKeepsShape(w, Event(e));
    var w', s' := Step(w, Event(e)), Act(s, Feed(e));
    assert w'.stored == w.stored && s'.store == s.store;
    forall k: Key | Free(':', k.routerID) ensures KeyHolds(w', s', k, json) {
      assert KeyHolds(w, s, k, json);
    }
  }

  lemma StoreKeepsSync(w: World, s: State, g: nat, a: Action, json: Json)
    requires InSync(w, s, json) && a.StoreList? && Proper(a)
    requires Enabled(w, Store(g, a.ok)) && Does(w, Store(g, a.ok), a, json)
    ensures InSync(Step(w, Store(g, a.ok)), Act(s, a), json)
  {
    StepKeepsShape(w, Store(g, a.ok));
    var w', s' := Step(w, Store(g, a.ok)), Act(s, a);
    forall k: Key | Free(':', k.routerID) ensures KeyHolds(w', s', k, json) {
      ActOnList(s, a, k);
      assert KeyHolds(w, s, k, json);
      if a.ok && a.key == k {
        var before := Get(s.store, InactiveKey(k.routerID, k.category));
        assert before + a.data == a.data;
      }
    }
  }

  // ------------------------------------------------------------- a run

  lemma {:induction false} DoFirst(s: State, run: seq<Action>)
    requires Together(s.agg) && run != []
    ensures Do(s, run) == Do(Act(s, run[0]), run[1..])
    decreases |run|
  {
    if |run| > 1 {
      var init := run[..|run| - 1];
      DoFirst(s, init);
      assert run[1..][..|run| - 2] == init[1..];
    }
  }

  lemma {:induction false} SyncStays(w: World, labels: seq<Label>, run: seq<Action>, s: State, json: Json)
    requires InSync(w, s, json) && Carries(w, labels, run, json) && AllProper(run)
    ensures IsRun(w, labels) && InSync(Run(w, labels), Do(s, run), json)
    decreases |labels| + |run|
  {
    if run != [] && Aside(run[0]) && Carries(w, labels, run[1..], json) {
      AsideKeepsSync(w, s, run[0], json);
      DoFirst(s, run);
      SyncStays(w, labels, run[1..], Act(s, run[0]), json);
    } else if labels != [] {
      StepKeepsShape(w, labels[0]);
      var w' := Step(w, labels[0]);
      if labels[0].ReadMaps? {
        ReadKeepsSync(w, s, labels[0].g, json);
        SyncStays(w', labels[1..], run, s, json);
      } else {
        DoesKeepsSync(w, s, labels[0], run[0], json);
        DoFirst(s, run);
        SyncStays(w', labels[1..], run[1..], Act(s, run[0]), json);
      }
    }
  }

  lemma DoesKeepsSync(w: World, s: State, l: Label, a: Action, json: Json)
    requires InSync(w, s, json) && Proper(a) && Enabled(w, l) && Does(w, l, a, json)
    ensures InSync(Step(w, l), Act(s, a), json)
  {
    match l
    case Event(e) => EventKeepsSync(w, s, e, json);
    case Store(g, ok) => StoreKeepsSync(w, s, g, a, json);
  }

  /** After any run of the process from its start, every aggregator key holds the list stored for it last. */
  lemma KeysHoldStoredLists(labels: seq<Label>, run: seq<Action>, k: Key, json: Json)
    requires Carries(START, labels, run, json) && AllProper(run) && Free(':', k.routerID)
    ensures IsRun(START, labels) && KeyHolds(Run(START, labels), Do(INITIAL, run), k, json)
  {
    SyncStays(START, labels, run, INITIAL, json);
  }

  /**
   So from any state in which none of k's recalculations is outdated, a run of the process without a further
   event or failing store of k leaves the encoding of the current difference under k's key, once nothing is
   under way for k.
   */
  lemma KeyWillHoldCurrentList(w: World, s: State, labels: seq<Label>, run: seq<Action>, k: Key, json: Json)
    requires InSync(w, s, json) && Carries(w, labels, run, json) && AllProper(run) && Free(':', k.routerID)
    requires NoneOutdated(w, k) && IsQuietRun(w, labels, k)
    ensures IsRun(w, labels)
    ensures var w' := Run(w, labels);
            Pending(w', k) ||
            Encodes(json, Difference(Now(w'), k),
                    Get(Do(s, run).store, InactiveKey(k.routerID, k.category)))
  {
    SyncStays(w, labels, run, s, json);
    ListWillBeCurrentIffNoneOutdated(w, k);
    assert EndsCurrent(w, labels, k);
    assert KeyHolds(Run(w, labels), Do(s, run), k, json);
  }
}
