/**
 The inactive-user aggregator of internal/usecase/aggregator.go: who is configured and who is online,
 per router and category, and the difference of the two.
 */
module Aggregator {
  import opened Wrappers
  import opened Text
  import opened Domain
  import opened Parser
  import opened Orders
  import CacheStore

  // ------------------------------------------------------------- specification

  datatype Agg = Agg(
    pppSecrets: map<string, map<string, Data>>,
    pppActives: map<string, set<string>>,
    hotspotUsers: map<string, map<string, Data>>,
    hotspotActives: map<string, set<string>>)

  const EMPTY := Agg(map[], map[], map[], map[])

  function Totals(a: Agg, r: string, c: Category): map<string, Data> {
    var all := if c.Ppp? then a.pppSecrets else a.hotspotUsers;
    if r in all then all[r] else map[]
  }

  function Actives(a: Agg, r: string, c: Category): set<string> {
    var all := if c.Ppp? then a.pppActives else a.hotspotActives;
    if r in all then all[r] else {}
  }

  /** All four maps know a router together. */
  predicate Together(a: Agg) {
    a.pppSecrets.Keys == a.pppActives.Keys == a.hotspotUsers.Keys == a.hotspotActives.Keys
  }

  function EnsureRouter(a: Agg, r: string): (b: Agg)
    requires Together(a)
    ensures Together(b) && r in b.pppSecrets
  {
    if r in a.pppSecrets then a
    else Agg(a.pppSecrets[r := map[]], a.pppActives[r := {}], a.hotspotUsers[r := map[]], a.hotspotActives[r := {}])
  }

  function CacheDataOf(e: TelemetryEvent): Data {
    match e.cacheData case Some(d) => d case None => map[]
  }

  /** The user a secret or user event is about. */
  function TotalName(e: TelemetryEvent): string {
    var name := Lookup(CacheDataOf(e), "name");
    if name == "" then Lookup(e.tags, "name") else name
  }

  /** event.Fields[field].(string) panics unless the field is there and is a string. */
  function ActiveName(e: TelemetryEvent, field: string): Option<string> {
    if field in e.fields && e.fields[field].Str? then
      var name := e.fields[field].s;
      Some(if name == "" then Lookup(e.tags, field) else name)
    else None
  }

  /** Of the category's two measurements, the one for configured users and the one for sessions. */
  function TotalMeasurement(c: Category): string {
    if c.Ppp? then "ppp_secret" else "hotspot_user"
  }

  function ActiveMeasurement(c: Category): string {
    if c.Ppp? then "ppp_active" else "hotspot_active"
  }

  function ActiveField(c: Category): string {
    if c.Ppp? then "name" else "user"
  }

  datatype Feed = Configured(category: Category) | Online(category: Category) | Neither

  /** The measurements Update looks at. */
  function FeedOf(measurement: string): (f: Feed)
    ensures forall c :: f == Configured(c) <==> measurement == TotalMeasurement(c)
    ensures forall c :: f == Online(c) <==> measurement == ActiveMeasurement(c)
  {
    assert "ppp_active"[4] == 'a' && "ppp_secret"[4] == 's';
    assert |"ppp_secret"| == |"ppp_active"| == 10 && |"hotspot_user"| == 12 && |"hotspot_active"| == 14;
    if measurement == "ppp_secret" then Configured(Ppp)
    else if measurement == "ppp_active" then Online(Ppp)
    else if measurement == "hotspot_user" then Configured(Hotspot)
    else if measurement == "hotspot_active" then Online(Hotspot)
    else Neither
  }

  predicate IsChange(e: TelemetryEvent) {
    e.kind.EventUpdate? || e.kind.EventDead?
  }

  predicate Panics(e: TelemetryEvent) {
    IsChange(e) && match FeedOf(e.measurement)
                   case Online(c) => ActiveName(e, ActiveField(c)).None?
                   case _ => false
  }

  function Drop(m: map<string, Data>, u: string): map<string, Data> {
    m - {u}
  }

  function UpdateTotals(m: map<string, Data>, e: TelemetryEvent): map<string, Data> {
    if e.kind.EventUpdate? then m[TotalName(e) := CacheDataOf(e)] else Drop(m, TotalName(e))
  }

  function UpdateActives(s: set<string>, e: TelemetryEvent, u: string): set<string> {
    if e.kind.EventUpdate? then s + {u} else s - {u}
  }

  /** The switch of Update, on a router that is known. */
  function Changed(b: Agg, e: TelemetryEvent): (a: Agg)
    requires Together(b) && e.routerID in b.pppSecrets && IsChange(e) && !Panics(e)
    ensures Together(a)
  {
    var r := e.routerID;
    match FeedOf(e.measurement)
    case Configured(Ppp) => b.(pppSecrets := b.pppSecrets[r := UpdateTotals(b.pppSecrets[r], e)])
    case Online(Ppp) =>
      b.(pppActives := b.pppActives[r := UpdateActives(b.pppActives[r], e, ActiveName(e, "name").value)])
    case Configured(Hotspot) => b.(hotspotUsers := b.hotspotUsers[r := UpdateTotals(b.hotspotUsers[r], e)])
    case Online(Hotspot) =>
      b.(hotspotActives := b.hotspotActives[r := UpdateActives(b.hotspotActives[r], e, ActiveName(e, "user").value)])
    case Neither => b
  }

  /** The state after Update; an event that panics leaves no state to speak of. */
  function Updated(a: Agg, e: TelemetryEvent): (a': Agg)
    requires Together(a) && !Panics(e)
    ensures Together(a')
  {
    if IsChange(e) then Changed(EnsureRouter(a, e.routerID), e) else a
  }

  /** The category a recalculation is started for. */
  function Spawns(e: TelemetryEvent): Option<Category> {
    if !IsChange(e) then None else
      match FeedOf(e.measurement)
      case Configured(c) => Some(c)
      case Online(c) => Some(c)
      case Neither => None
  }

  /** Configured users without a session. */
  function Inactive(a: Agg, r: string, c: Category): map<string, Data> {
    map u | u in Totals(a, r, c) && u !in Actives(a, r, c) :: Totals(a, r, c)[u]
  }

  // ------------------------------------------------------------- each measurement's own branch

  /** The name in the snapshot, unless it is missing or empty, and then the one in the tags. */
  predicate SaysName(e: TelemetryEvent, name: string) {
    var own := if e.cacheData.Some? && "name" in e.cacheData.value then e.cacheData.value["name"] else "";
    name == if own != "" then own else if "name" in e.tags then e.tags["name"] else ""
  }

  /** The name in the field, unless it is empty, and then the one in the tag. The field must be there, as a string. */
  predicate FieldSays(e: TelemetryEvent, field: string, name: string) {
    && field in e.fields && e.fields[field].Str?
    && name == if e.fields[field].s != "" then e.fields[field].s else if field in e.tags then e.tags[field] else ""
  }

  /** m with the value of an update put in, or that of a dead event taken out. */
  function Changing(m: map<string, Data>, e: TelemetryEvent, name: string): map<string, Data> {
    if e.kind == EventUpdate then m[name := if e.cacheData.Some? then e.cacheData.value else map[]] else m - {name}
  }

  function ChangingSet(s: set<string>, e: TelemetryEvent, name: string): set<string> {
    if e.kind == EventUpdate then s + {name} else s - {name}
  }

  /** What the aggregator knows of the router before the event, which is nothing for a new one. */
  function Known(a: Agg, r: string): (b: Agg)
    requires Together(a)
    ensures r in b.pppSecrets && Together(b)
    ensures r in a.pppSecrets ==> b == a
    ensures r !in a.pppSecrets ==>
              b == Agg(a.pppSecrets[r := map[]], a.pppActives[r := {}],
                       a.hotspotUsers[r := map[]], a.hotspotActives[r := {}])
  {
    EnsureRouter(a, r)
  }

  lemma SecretBranch(a: Agg, e: TelemetryEvent, name: string)
    requires Together(a) && (e.kind == EventUpdate || e.kind == EventDead) && SaysName(e, name)
    requires e.measurement == "ppp_secret" || e.measurement == "hotspot_user"
    ensures !Panics(e) && Spawns(e) == Some(if e.measurement == "ppp_secret" then Ppp else Hotspot)
    ensures var b, r := Known(a, e.routerID), e.routerID;
            Updated(a, e) ==
            if e.measurement == "ppp_secret"
            then b.(pppSecrets := b.pppSecrets[r := Changing(b.pppSecrets[r], e, name)])
            else b.(hotspotUsers := b.hotspotUsers[r := Changing(b.hotspotUsers[r], e, name)])
  {
  }

  lemma SessionBranch(a: Agg, e: TelemetryEvent, name: string)
    requires Together(a) && (e.kind == EventUpdate || e.kind == EventDead)
    requires (e.measurement == "ppp_active" && FieldSays(e, "name", name))
             || (e.measurement == "hotspot_active" && FieldSays(e, "user", name))
    ensures !Panics(e) && Spawns(e) == Some(if e.measurement == "ppp_active" then Ppp else Hotspot)
    ensures var b, r := Known(a, e.routerID), e.routerID;
            Updated(a, e) ==
            if e.measurement == "ppp_active"
            then b.(pppActives := b.pppActives[r := ChangingSet(b.pppActives[r], e, name)])
            else b.(hotspotActives := b.hotspotActives[r := ChangingSet(b.hotspotActives[r], e, name)])
  {
  }

  /** Other measurements make the router known, and other events do nothing. */
  lemma OtherBranch(a: Agg, e: TelemetryEvent)
    requires Together(a) && e.measurement !in {"ppp_secret", "ppp_active", "hotspot_user", "hotspot_active"}
    ensures !Panics(e) && Spawns(e) == None
    ensures Updated(a, e) == if e.kind == EventOther then a else Known(a, e.routerID)
  {
  }

  lemma PanicsIff(e: TelemetryEvent)
    ensures Panics(e) <==>
            && e.kind != EventOther
            && ((e.measurement == "ppp_active" && !("name" in e.fields && e.fields["name"].Str?))
                || (e.measurement == "hotspot_active" && !("user" in e.fields && e.fields["user"].Str?)))
    ensures e.kind == EventOther ==> Spawns(e) == None
  {
  }

  /** Of a router nobody has told of, everything is empty. */
  lemma InactiveOf(a: Agg, r: string, u: string)
    requires Together(a)
    ensures u in Inactive(a, r, Ppp) <==> r in a.pppSecrets && u in a.pppSecrets[r] && u !in a.pppActives[r]
    ensures u in Inactive(a, r, Ppp) ==> Inactive(a, r, Ppp)[u] == a.pppSecrets[r][u]
    ensures u in Inactive(a, r, Hotspot) <==> r in a.hotspotUsers && u in a.hotspotUsers[r] && u !in a.hotspotActives[r]
    ensures u in Inactive(a, r, Hotspot) ==> Inactive(a, r, Hotspot)[u] == a.hotspotUsers[r][u]
  {
  }

  // ------------------------------------------------------------- reference: the last word on each user

  /** e is the router's word on whether user u is configured. */
  predicate OnTotal(e: TelemetryEvent, r: string, c: Category, u: string) {
    IsChange(e) && e.routerID == r && e.measurement == TotalMeasurement(c) && TotalName(e) == u
  }

  predicate OnActive(e: TelemetryEvent, r: string, c: Category, u: string) {
    IsChange(e) && e.routerID == r && e.measurement == ActiveMeasurement(c) && ActiveName(e, ActiveField(c)) == Some(u)
  }

  /** The snapshot of the last event on u's configuration, if that was an update. */
  function LastTotal(events: seq<TelemetryEvent>, r: string, c: Category, u: string): Option<Data> {
    if events == [] then None else
      var e := events[|events| - 1];
      if OnTotal(e, r, c, u) then (if e.kind.EventUpdate? then Some(CacheDataOf(e)) else None)
      else LastTotal(events[..|events| - 1], r, c, u)
  }

  /** Whether the last event on u's sessions was an update. */
  predicate LastActive(events: seq<TelemetryEvent>, r: string, c: Category, u: string) {
    events != [] &&
    var e := events[|events| - 1];
    if OnActive(e, r, c, u) then e.kind.EventUpdate? else LastActive(events[..|events| - 1], r, c, u)
  }

  predicate Calm(events: seq<TelemetryEvent>) {
    forall i | 0 <= i < |events| :: !Panics(events[i])
  }

  function Fold(events: seq<TelemetryEvent>): (a: Agg)
    requires Calm(events)
    ensures Together(a)
  {
    if events == [] then EMPTY else Updated(Fold(events[..|events| - 1]), events[|events| - 1])
  }

  /** Making a router known changes nobody's list. */
  lemma EnsureRouterKeeps(a: Agg, r': string, r: string, c: Category)
    requires Together(a)
    ensures Totals(EnsureRouter(a, r'), r, c) == Totals(a, r, c)
    ensures Actives(EnsureRouter(a, r'), r, c) == Actives(a, r, c)
  {
  }

  lemma ChangedTotals(b: Agg, e: TelemetryEvent, r: string, c: Category)
    requires Together(b) && e.routerID in b.pppSecrets && IsChange(e) && !Panics(e)
    ensures Totals(Changed(b, e), r, c) ==
            if e.routerID == r && FeedOf(e.measurement) == Configured(c) then UpdateTotals(Totals(b, r, c), e)
            else Totals(b, r, c)
  {
  }

  lemma ChangedActives(b: Agg, e: TelemetryEvent, r: string, c: Category)
    requires Together(b) && e.routerID in b.pppSecrets && IsChange(e) && !Panics(e)
    ensures Actives(Changed(b, e), r, c) ==
            if e.routerID == r && FeedOf(e.measurement) == Online(c)
            then UpdateActives(Actives(b, r, c), e, ActiveName(e, ActiveField(c)).value)
            else Actives(b, r, c)
  {
  }

  lemma UpdateTotal(a: Agg, e: TelemetryEvent, r: string, c: Category, u: string)
    requires Together(a) && !Panics(e)
    ensures var t, t' := Totals(a, r, c), Totals(Updated(a, e), r, c);
            if !OnTotal(e, r, c, u) then (u in t' <==> u in t) && (u in t ==> t'[u] == t[u])
            else if e.kind.EventUpdate? then u in t' && t'[u] == CacheDataOf(e)
            else u !in t'
  {
    if IsChange(e) {
      EnsureRouterKeeps(a, e.routerID, r, c);
      ChangedTotals(EnsureRouter(a, e.routerID), e, r, c);
    }
  }

  lemma UpdateActive(a: Agg, e: TelemetryEvent, r: string, c: Category, u: string)
    requires Together(a) && !Panics(e)
    ensures var s, s' := Actives(a, r, c), Actives(Updated(a, e), r, c);
            u in s' <==> if OnActive(e, r, c, u) then e.kind.EventUpdate? else u in s
  {
    if IsChange(e) {
      EnsureRouterKeeps(a, e.routerID, r, c);
      ChangedActives(EnsureRouter(a, e.routerID), e, r, c);
    }
  }

  /** After any run of events, a user is configured, with that snapshot, iff the last event on it said so. */
  lemma {:induction false} TotalsAreLastWords(events: seq<TelemetryEvent>, r: string, c: Category, u: string)
    requires Calm(events)
    ensures var t := Totals(Fold(events), r, c);
            LastTotal(events, r, c, u) == if u in t then Some(t[u]) else None
  {
    if events != [] {
      var init, e := events[..|events| - 1], events[|events| - 1];
      TotalsAreLastWords(init, r, c, u);
      UpdateTotal(Fold(init), e, r, c, u);
    }
  }

  lemma {:induction false} ActivesAreLastWords(events: seq<TelemetryEvent>, r: string, c: Category, u: string)
    requires Calm(events)
    ensures u in Actives(Fold(events), r, c) <==> LastActive(events, r, c, u)
  {
    if events != [] {
      var init, e := events[..|events| - 1], events[|events| - 1];
      ActivesAreLastWords(init, r, c, u);
      UpdateActive(Fold(init), e, r, c, u);
    }
  }

  /** The inactive list after a run: users last reported configured and not last reported online. */
  lemma InactiveIsDifference(events: seq<TelemetryEvent>, r: string, c: Category, u: string)
    requires Calm(events)
    ensures u in Inactive(Fold(events), r, c) <==>
            LastTotal(events, r, c, u).Some? && !LastActive(events, r, c, u)
    ensures u in Inactive(Fold(events), r, c) ==> Some(Inactive(Fold(events), r, c)[u]) == LastTotal(events, r, c, u)
  {
    TotalsAreLastWords(events, r, c, u);
    ActivesAreLastWords(events, r, c, u);
  }

  /** The number stored with a list. */
  lemma InactiveCount(a: Agg, r: string, c: Category)
    ensures |Inactive(a, r, c)| == |Totals(a, r, c)| - |Totals(a, r, c).Keys * Actives(a, r, c)|
  {
    var t, s := Totals(a, r, c), Actives(a, r, c);
    CountWithout(t.Keys, s);
    assert Inactive(a, r, c).Keys == t.Keys - s;
    assert |t.Keys| == |t| && |Inactive(a, r, c).Keys| == |Inactive(a, r, c)|;
  }

  lemma CountWithout(all: set<string>, some: set<string>)
    ensures |all - some| == |all| - |all * some|
  {
    assert all == (all - some) + (all * some);
  }

  // ------------------------------------------------------------- what the shipped specs send

  /** The fields PPPActiveSpec and HotspotActiveSpec fill; their dead events carry none at all. */
  predicate FromShippedActiveSpec(e: TelemetryEvent, c: Category) {
    && e.measurement == ActiveMeasurement(c)
    && match e.kind
       case EventUpdate =>
         e.fields.Keys == (if c.Ppp? then {"address", "uptime", "encoding"} else {"uptime", "bytes_in", "bytes_out"})
       case EventDead => e.fields == map[]
       case EventOther => false
  }

  /** Neither shipped session spec puts the name where Update looks for it: each of their events panics. */
  lemma ShippedActiveSpecsPanic(e: TelemetryEvent, c: Category)
    requires FromShippedActiveSpec(e, c)
    ensures Panics(e)
  {
    assert ActiveField(c) !in e.fields by {
      assert ActiveField(Ppp) == "name" && ActiveField(Hotspot) == "user";
      assert "name"[0] == 'n' && "address"[0] == 'a' && "uptime"[0] == 'u' && "encoding"[0] == 'e';
      assert |"user"| == 4 && |"uptime"| == 6 && |"bytes_in"| == 8 && |"bytes_out"| == 9;
    }
    assert ActiveName(e, ActiveField(c)).None?;
  }

  /** A dead event as the shipped secret and user specs send it: no snapshot, no tags. */
  predicate BareDead(e: TelemetryEvent, c: Category) {
    e.measurement == TotalMeasurement(c) && e.kind.EventDead? && e.cacheData.None? && e.tags == map[]
  }

  /** A dead event removes its router's user u, if configured, exactly when it names u. A bare one names only "". */
  lemma DeadRemovesExactlyTheNamed(a: Agg, e: TelemetryEvent, c: Category, u: string)
    requires Together(a) && !Panics(e) && e.kind.EventDead? && e.measurement == TotalMeasurement(c)
    requires u in Totals(a, e.routerID, c)
    ensures u !in Totals(Updated(a, e), e.routerID, c) <==> TotalName(e) == u
    ensures BareDead(e, c) ==> TotalName(e) == ""
  {
    UpdateTotal(a, e, e.routerID, c, u);
  }

  // ------------------------------------------------------------- the aggregator itself

  datatype Outcome = Unchanged | Spawned(category: Category) | Panicked

  /** A recalculation between reading the maps and storing the list. */
  datatype Snapshot = Snapshot(key: string, payload: seq<Data>)

  /** The fields of a stored list. */
  const LIST_FIELDS := {"list", "count", "timestamp"}

  class InactiveAggregator {
    const cache: CacheStore.RedisRepository
    const listJson: seq<Data> -> string    // json.Marshal of the list

    var pppSecrets: map<string, map<string, Data>>
    var pppActives: map<string, set<string>>
    var hotspotUsers: map<string, map<string, Data>>
    var hotspotActives: map<string, set<string>>

    ghost function Abs(): Agg
      reads this
    {
      Agg(pppSecrets, pppActives, hotspotUsers, hotspotActives)
    }

    constructor (cache: CacheStore.RedisRepository, listJson: seq<Data> -> string)
      ensures Abs() == EMPTY && this.cache == cache && this.listJson == listJson
    {
      this.cache, this.listJson := cache, listJson;
      pppSecrets, pppActives, hotspotUsers, hotspotActives := map[], map[], map[], map[];
    }

    method DoEnsureRouter(r: string)
      requires Together(Abs())
      modifies this
      ensures Together(Abs()) && r in pppSecrets && Abs() == EnsureRouter(old(Abs()), r)
    {
      if r !in pppSecrets {
        pppSecrets := pppSecrets[r := map[]];
        pppActives := pppActives[r := {}];
        hotspotUsers := hotspotUsers[r := map[]];
        hotspotActives := hotspotActives[r := {}];
      }
    }

    method Update(event: TelemetryEvent) returns (outcome: Outcome)
      requires Together(Abs())
      modifies this
      ensures outcome == Panicked <==> Panics(event)
      ensures outcome != Panicked ==> Together(Abs()) && Abs() == Updated(old(Abs()), event)
      ensures outcome != Panicked ==>
                outcome == match Spawns(event) case Some(c) => Spawned(c) case None => Unchanged
    {
      if event.kind != EventUpdate && event.kind != EventDead {
        return Unchanged;
      }
      var r := event.routerID;
      DoEnsureRouter(r);
      match FeedOf(event.measurement) {
        case Configured(Ppp) =>
          OnPppSecrets(event);
          return Spawned(Ppp);
        case Online(Ppp) =>
          var panicked := OnPppActives(event);
          return if panicked then Panicked else Spawned(Ppp);
        case Configured(Hotspot) =>
          OnHotspotUsers(event);
          return Spawned(Hotspot);
        case Online(Hotspot) =>
          var panicked := OnHotspotActives(event);
          return if panicked then Panicked else Spawned(Hotspot);
        case Neither =>
          return Unchanged;
      }
    }

    method OnPppSecrets(event: TelemetryEvent)
      requires Together(Abs()) && event.routerID in pppSecrets && IsChange(event)
      requires FeedOf(event.measurement) == Configured(Ppp)
      modifies this`pppSecrets
      ensures Abs() == Changed(old(Abs()), event)
    {
      var r, data := event.routerID, CacheDataOf(event);
      var name := Lookup(data, "name");
      if name == "" {
        name := Lookup(event.tags, "name");
      }
      if event.kind == EventUpdate {
        pppSecrets := pppSecrets[r := pppSecrets[r][name := data]];
      } else {
        pppSecrets := pppSecrets[r := pppSecrets[r] - {name}];
      }
    }

    method OnPppActives(event: TelemetryEvent) returns (panicked: bool)
      requires Together(Abs()) && event.routerID in pppSecrets && IsChange(event)
      requires FeedOf(event.measurement) == Online(Ppp)
      modifies this`pppActives
      ensures panicked <==> Panics(event)
      ensures !panicked ==> Abs() == Changed(old(Abs()), event)
    {
      var r := event.routerID;
      if "name" !in event.fields || !event.fields["name"].Str? {
        return true;
      }
      var name := event.fields["name"].s;
      if name == "" {
        name := Lookup(event.tags, "name");
      }
      if event.kind == EventUpdate {
        pppActives := pppActives[r := pppActives[r] + {name}];
      } else {
        pppActives := pppActives[r := pppActives[r] - {name}];
      }
      return false;
    }

    method OnHotspotUsers(event: TelemetryEvent)
      requires Together(Abs()) && event.routerID in pppSecrets && IsChange(event)
      requires FeedOf(event.measurement) == Configured(Hotspot)
      modifies this`hotspotUsers
      ensures Abs() == Changed(old(Abs()), event)
    {
      var r, data := event.routerID, CacheDataOf(event);
      var name := Lookup(data, "name");
      if name == "" {
        name := Lookup(event.tags, "name");
      }
      if event.kind == EventUpdate {
        hotspotUsers := hotspotUsers[r := hotspotUsers[r][name := data]];
      } else {
        hotspotUsers := hotspotUsers[r := hotspotUsers[r] - {name}];
      }
    }

    method OnHotspotActives(event: TelemetryEvent) returns (panicked: bool)
      requires Together(Abs()) && event.routerID in pppSecrets && IsChange(event)
      requires FeedOf(event.measurement) == Online(Hotspot)
      modifies this`hotspotActives
      ensures panicked <==> Panics(event)
      ensures !panicked ==> Abs() == Changed(old(Abs()), event)
    {
      var r := event.routerID;
      if "user" !in event.fields || !event.fields["user"].Str? {
        return true;
      }
      var name := event.fields["user"].s;
      if name == "" {
        name := Lookup(event.tags, "user");
      }
      if event.kind == EventUpdate {
        hotspotActives := hotspotActives[r := hotspotActives[r] + {name}];
      } else {
        hotspotActives := hotspotActives[r := hotspotActives[r] - {name}];
      }
      return false;
    }

    /** The read-locked half of recalculateAndCache, and the list built from it: every inactive user once. */
    method TakeSnapshot(r: string, category: Category) returns (snapshot: Snapshot)
      ensures snapshot.key == InactiveKey(r, category)
      ensures snapshot.key == "roskit:" + r + (if category == Ppp then ":ppp_inactive" else ":hotspot_inactive")
      ensures IsListing(snapshot.payload, Inactive(Abs(), r, category))
      ensures var totals, actives := Totals(Abs(), r, category), Actives(Abs(), r, category);
              |snapshot.payload| == |totals| - |totals.Keys * actives|
    {
      var totals, actives;
      if category == Ppp {
        totals := if r in pppSecrets then pppSecrets[r] else map[];
        actives := if r in pppActives then pppActives[r] else {};
      } else {
        totals := if r in hotspotUsers then hotspotUsers[r] else map[];
        actives := if r in hotspotActives then hotspotActives[r] else {};
      }
      var inactiveData := CollectInactive(totals, actives);
      assert inactiveData == Inactive(Abs(), r, category);
      InactiveCount(Abs(), r, category);
      var payload := Payload(inactiveData);
      snapshot := Snapshot("roskit:" + r + ":" + InactiveName(category), payload);
      InactiveKeyIs(r, category);
    }

    /** The loop over the configured users. */
    method CollectInactive(totals: map<string, Data>, actives: set<string>) returns (inactiveData: map<string, Data>)
      ensures inactiveData == map u | u in totals && u !in actives :: totals[u]
    {
      inactiveData := map[];
      var left := totals.Keys;
      while left != {}
        invariant left <= totals.Keys
        invariant inactiveData == map u | u in totals && u !in actives && u !in left :: totals[u]
        decreases left
      {
        var username :| username in left;
        left := left - {username};
        if username !in actives {
          inactiveData := inactiveData[username := totals[username]];
        }
      }
    }

    method Payload(inactiveData: map<string, Data>) returns (payload: seq<Data>)
      ensures IsListing(payload, inactiveData) && |payload| == |inactiveData|
    {
      payload := [];
      ghost var order: seq<string> := [];
      var left := inactiveData.Keys;
      while left != {}
        invariant left <= inactiveData.Keys && |order| == |payload| && |order| + |left| == |inactiveData|
        invariant IsWalk(order, inactiveData, left)
        invariant payload == Values(order, inactiveData)
        decreases left
      {
        var username :| username in left;
        WalkOn(order, inactiveData, left, username);
        left := left - {username};
        payload := payload + [inactiveData[username]];
        assert (order + [username])[..|order|] == order;
        order := order + [username];
      }
    }

    /** The unlocked half: the list and its length replace all three fields under the category's key. */
    method StoreSnapshot(snapshot: Snapshot, timestamp: string, ok: bool)
      modifies cache
      ensures var count := Decimal(|snapshot.payload|);
              var data := map["list" := listJson(snapshot.payload), "count" := count, "timestamp" := timestamp];
              data.Keys == LIST_FIELDS
              && cache.hashes == if ok then CacheStore.Put(old(cache.hashes), snapshot.key, data) else old(cache.hashes)
    {
      var count := Decimal(|snapshot.payload|);
      var finalData := map["list" := listJson(snapshot.payload), "count" := count, "timestamp" := timestamp];
      assert "list" in finalData;
      var failed := cache.SetSnapshot(snapshot.key, finalData, ok);
    }
  }
}
