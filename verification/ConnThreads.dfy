/**
 Any number of goroutines on one RouterConn (internal/collector/pool.go:78-240), step by step: taking and
 leaving the RWMutex, starting and ending a dial, a Close call or a command are separate steps, in any
 interleaving. A goroutine may run any operations in any order.
 */
module ConnThreads {
  import opened Wrappers
  import opened Conn

  type Tid = nat

  /** Where a goroutine is. The lock is held from Inside to Leaving. */
  datatype Pc =
    | Idle
    | Waiting(op: Op)
    | Inside(op: Op)
    | Dialling                          // state is Connecting, rc.dial is running
    | Closing(op: Op, id: ClientId)     // client.Close() is running
    | Running(op: Op, id: ClientId)     // a command is running on the client
    | Leaving(op: Op, result: Result)

  datatype Sys = Sys(config: Config, conn: Conn, writer: Option<Tid>, readers: set<Tid>, pcs: seq<Pc>)

  function Start(config: Config, threads: nat): Sys {
    Sys(config, New(config), None, {}, seq(threads, _ => Idle))
  }

  /** The operations under RLock. */
  predicate Reads(op: Op) {
    op.IsAlive? || op.Execute? || op.State?
  }

  datatype Label = Call(t: Tid, op: Op) | Lock(t: Tid) | Body(t: Tid, ok: bool) | Unlock(t: Tid)

  predicate Enabled(s: Sys, l: Label) {
    l.t < |s.pcs| &&
    match l
    case Call(t, _) => s.pcs[t].Idle?
    case Lock(t) => s.pcs[t].Waiting? && s.writer.None? && (!Reads(s.pcs[t].op) ==> s.readers == {})
    case Body(t, _) => s.pcs[t].Inside? || s.pcs[t].Dialling? || s.pcs[t].Closing? || s.pcs[t].Running?
    case Unlock(t) => s.pcs[t].Leaving?
  }

  /** The next part of a body: the connection after it, and where the goroutine is then. */
  function BodyStep(config: Config, c: Conn, pc: Pc, ok: bool): (Conn, Pc)
    requires pc.Inside? || pc.Dialling? || pc.Closing? || pc.Running?
  {
    match pc
    case Dialling =>
      if ok then
        (c.(client := Some(c.dialled), state := Connected, delay := Interval(config), dialled := c.dialled + 1),
         Leaving(Connect, Done))
      else (c.(state := Disconnected), Leaving(Connect, Failed))
    case Closing(op, id) =>
      (c.(closes := c.closes + multiset{id}, client := None, state := Disconnected), Leaving(op, Done))
    case Running(op, _) => (c, Leaving(op, if op.IsAlive? then Alive(ok) else Replied(ok)))
    case Inside(op) =>
      match op
      case Connect =>
        if IsConnected(c) then (c, Leaving(op, Done)) else (c.(state := Connecting), Dialling)
      case Acquire =>
        if IsConnected(c) then (c.(async := c.async + {c.client.value}), Leaving(op, Client(c.client.value)))
        else (c, Leaving(op, Failed))
      case Release =>
        if c.client.Some? then (c, Closing(op, c.client.value)) else (c.(state := Disconnected), Leaving(op, Done))
      case Close =>
        if c.client.Some? then (c, Closing(op, c.client.value)) else (c.(state := Disconnected), Leaving(op, Done))
      case IsAlive =>
        if IsConnected(c) then (c, Running(op, c.client.value)) else (c, Leaving(op, Alive(false)))
      case Execute =>
        if IsConnected(c) then (c, Running(op, c.client.value)) else (c, Leaving(op, Failed))
      case State => (c, Leaving(op, StateIs(c.state)))
      case Backoff => (Apply(config, c, op, ok).0, Leaving(op, Wait(c.delay)))
  }

  function Next(s: Sys, l: Label): Sys
    requires Enabled(s, l)
  {
    match l
    case Call(t, op) => s.(pcs := s.pcs[t := Waiting(op)])
    case Lock(t) =>
      var op := s.pcs[t].op;
      if Reads(op) then s.(readers := s.readers + {t}, pcs := s.pcs[t := Inside(op)])
      else s.(writer := Some(t), pcs := s.pcs[t := Inside(op)])
    case Body(t, ok) =>
      var (c, pc) := BodyStep(s.config, s.conn, s.pcs[t], ok);
      s.(conn := c, pcs := s.pcs[t := pc])
    case Unlock(t) =>
      if Reads(s.pcs[t].op) then s.(readers := s.readers - {t}, pcs := s.pcs[t := Idle])
      else s.(writer := None, pcs := s.pcs[t := Idle])
  }

  ghost predicate IsRun(s: Sys, labels: seq<Label>)
    decreases labels
  {
    labels == [] || (Enabled(s, labels[0]) && IsRun(Next(s, labels[0]), labels[1..]))
  }

  function Run(s: Sys, labels: seq<Label>): Sys
    requires IsRun(s, labels)
    decreases labels
  {
    if labels == [] then s else Run(Next(s, labels[0]), labels[1..])
  }

  // ------------------------------------------------------------- invariant

  predicate Holds(pc: Pc) {
    !pc.Idle? && !pc.Waiting?
  }

  function OpOf(pc: Pc): Op
    requires Holds(pc)
  {
    if pc.Dialling? then Connect else pc.op
  }

  /** The committed connection: a dial in progress has not changed anything yet. */
  function Committed(c: Conn): Conn {
    if c.state.Connecting? then c.(state := Disconnected) else c
  }

  function Abs(s: Sys): Conn {
    Committed(s.conn)
  }

  /** The lock's record agrees with where the goroutines are. */
  ghost predicate LockInv(s: Sys) {
    && (forall t | 0 <= t < |s.pcs| && Holds(s.pcs[t]) ::
          if Reads(OpOf(s.pcs[t])) then t in s.readers else s.writer == Some(t))
    && (forall t | t in s.readers :: t < |s.pcs| && Holds(s.pcs[t]) && Reads(OpOf(s.pcs[t])))
    && (s.writer.Some? ==>
          var t := s.writer.value;
          t < |s.pcs| && Holds(s.pcs[t]) && !Reads(OpOf(s.pcs[t])))
    && (s.writer.Some? ==> s.readers == {})
  }

  /** What each goroutine's place says about the connection. */
  predicate PlaceInv(c: Conn, pc: Pc) {
    match pc
    case Dialling => c.state.Connecting?
    case Closing(op, id) => (op.Release? || op.Close?) && c.client == Some(id) && c.state.Connected?
    case Running(op, id) => (op.IsAlive? || op.Execute?) && c.client == Some(id) && c.state.Connected?
    case Leaving(op, result) =>
      && (op.State? ==> result.StateIs? && !result.state.Connecting?)
      && (result.Client? ==> c.client == Some(result.id))
    case _ => true
  }

  ghost predicate Inv(s: Sys) {
    && LockInv(s)
    && Tidy(Abs(s))
    && (s.conn.state.Connecting? ==> s.writer.Some? && s.pcs[s.writer.value].Dialling?)
    && forall t | 0 <= t < |s.pcs| :: PlaceInv(s.conn, s.pcs[t])
  }

  lemma StartInv(config: Config, threads: nat)
    ensures Inv(Start(config, threads))
  {
  }

  lemma LockStep(s: Sys, l: Label)
    requires LockInv(s) && Enabled(s, l)
    ensures LockInv(Next(s, l))
  {
  }

  /** A body step is its operation's atomic body when it completes it, and commits nothing when it does not. */
  lemma BodyRefines(config: Config, c: Conn, pc: Pc, ok: bool)
    requires pc.Inside? || pc.Dialling? || pc.Closing? || pc.Running?
    requires PlaceInv(c, pc) && Tidy(Committed(c)) && (c.state.Connecting? ==> pc.Dialling?)
    ensures var (c', pc') := BodyStep(config, c, pc, ok);
            && (c'.state.Connecting? <==> pc'.Dialling?)
            && PlaceInv(c', pc')
            && if pc'.Leaving? then
                 pc'.op == OpOf(pc) && Apply(config, Committed(c), pc'.op, ok) == (Committed(c'), pc'.result)
               else Committed(c') == Committed(c)
  {
    match pc
    case Dialling =>
    case Closing(_, _) =>
    case Running(_, _) =>
    case Inside(op) =>
      match op
      case Connect =>
      case Acquire =>
      case Release =>
      case Close =>
      case _ =>
  }

  /** A goroutine about to take a body step is the one that holds the dial, if there is one. */
  lemma OnlyDiallerSeesConnecting(s: Sys, t: Tid)
    requires Inv(s) && t < |s.pcs| && Holds(s.pcs[t])
    ensures s.conn.state.Connecting? ==> s.pcs[t].Dialling?
  {
  }

  /** The connection after a body step, and the place of the goroutine that took it. */
  lemma BodyKeepsConn(s: Sys, t: Tid, ok: bool)
    requires Inv(s) && Enabled(s, Body(t, ok))
    ensures var s' := Next(s, Body(t, ok));
            && Tidy(Abs(s')) && PlaceInv(s'.conn, s'.pcs[t])
            && (s'.conn.state.Connecting? <==> s'.pcs[t].Dialling?)
  {
    assert PlaceInv(s.conn, s.pcs[t]);
    OnlyDiallerSeesConnecting(s, t);
    BodyRefines(s.config, s.conn, s.pcs[t], ok);
    ApplyKeepsTidy(s.config, Abs(s), OpOf(s.pcs[t]), ok);
  }

  /** A body step of one goroutine leaves every other goroutine's place true. */
  lemma BodyKeepsOthers(s: Sys, t: Tid, ok: bool, u: Tid)
    requires Inv(s) && Enabled(s, Body(t, ok)) && u < |s.pcs| && u != t
    ensures PlaceInv(Next(s, Body(t, ok)).conn, s.pcs[u])
  {
    assert PlaceInv(s.conn, s.pcs[u]) && PlaceInv(s.conn, s.pcs[t]);
  }

  lemma StepKeepsInv(s: Sys, l: Label)
    requires Inv(s) && Enabled(s, l)
    ensures Inv(Next(s, l))
  {
    LockStep(s, l);
    if l.Body? {
      BodyKeepsConn(s, l.t, l.ok);
      forall u | 0 <= u < |s.pcs| && u != l.t ensures PlaceInv(Next(s, l).conn, s.pcs[u]) {
        BodyKeepsOthers(s, l.t, l.ok, u);
      }
    } else {
      OutsideKeepsInv(s, l);
    }
  }

  lemma OutsideKeepsInv(s: Sys, l: Label)
    requires Inv(s) && Enabled(s, l) && !l.Body?
    ensures Inv(Next(s, l))
  {
    LockStep(s, l);
    var s' := Next(s, l);
    assert s'.conn == s.conn;
    forall u | 0 <= u < |s'.pcs| ensures PlaceInv(s'.conn, s'.pcs[u]) {
      assert PlaceInv(s.conn, s.pcs[u]);
    }
  }

  lemma {:induction false} RunKeepsInv(s: Sys, labels: seq<Label>)
    requires Inv(s) && IsRun(s, labels)
    ensures Inv(Run(s, labels))
    decreases labels
  {
    if labels != [] {
      StepKeepsInv(s, labels[0]);
      RunKeepsInv(Next(s, labels[0]), labels[1..]);
    }
  }

  // ------------------------------------------------------------- every interleaving

  /**
   At every moment of every interleaving each dialled client is the current one and never closed, or has
   been closed exactly once; so at most one is open. No State call returns Connecting.
   */
  lemma EveryClientClosedOnce(config: Config, threads: nat, labels: seq<Label>)
    requires IsRun(Start(config, threads), labels)
    ensures var s := Run(Start(config, threads), labels);
            && (forall id: ClientId | id < s.conn.dialled ::
                  s.conn.closes[id] == if s.conn.client == Some(id) then 0 else 1)
            && (forall id: ClientId | id >= s.conn.dialled :: s.conn.closes[id] == 0 && s.conn.client != Some(id))
            && (forall t | 0 <= t < |s.pcs| :: s.pcs[t] != Leaving(State, StateIs(Connecting)))
  {
    StartInv(config, threads);
    RunKeepsInv(Start(config, threads), labels);
    var s := Run(Start(config, threads), labels);
    assert Abs(s).closes == s.conn.closes && Abs(s).client == s.conn.client && Abs(s).dialled == s.conn.dialled;
    forall t | 0 <= t < |s.pcs| ensures s.pcs[t] != Leaving(State, StateIs(Connecting)) {
      assert PlaceInv(s.conn, s.pcs[t]);
    }
  }

  /** No command ever runs on a client while it, or any client, is being closed, nor after it has been. */
  lemma NoCommandMeetsClose(config: Config, threads: nat, labels: seq<Label>, t: Tid, u: Tid)
    requires IsRun(Start(config, threads), labels)
    ensures var s := Run(Start(config, threads), labels);
            t < |s.pcs| && u < |s.pcs| && s.pcs[t].Running? ==>
              !s.pcs[u].Closing? && s.conn.closes[s.pcs[t].id] == 0
  {
    StartInv(config, threads);
    RunKeepsInv(Start(config, threads), labels);
    var s := Run(Start(config, threads), labels);
    if t < |s.pcs| && u < |s.pcs| {
      assert PlaceInv(s.conn, s.pcs[t]) && PlaceInv(s.conn, s.pcs[u]);
    }
  }

  // ------------------------------------------------------------- refinement

  /** Whether a step completes its goroutine's operation. */
  predicate Completes(s: Sys, l: Label)
    requires Enabled(s, l)
  {
    l.Body? && Next(s, l).pcs[l.t].Leaving?
  }

  /**
   Every step is one of the atomic bodies of RouterConn with the result its caller gets, or changes nothing.
   So any interleaving acts as these bodies one after the other.
   */
  lemma StepRefines(s: Sys, l: Label)
    requires Inv(s) && Enabled(s, l)
    ensures Next(s, l).config == s.config
    ensures !Completes(s, l) ==> Abs(Next(s, l)) == Abs(s)
    ensures Completes(s, l) ==>
              var pc := Next(s, l).pcs[l.t];
              pc.op == OpOf(s.pcs[l.t]) && Apply(s.config, Abs(s), pc.op, l.ok) == (Abs(Next(s, l)), pc.result)
  {
    if l.Body? {
      assert PlaceInv(s.conn, s.pcs[l.t]);
      OnlyDiallerSeesConnecting(s, l.t);
      BodyRefines(s.config, s.conn, s.pcs[l.t], l.ok);
    }
  }

  datatype Event = Event(t: Tid, op: Op, ok: bool, result: Result)

  /** The operations a run completes, in the order of their completing steps. */
  function Completed(s: Sys, labels: seq<Label>): seq<Event>
    requires IsRun(s, labels)
    decreases labels
  {
    if labels == [] then [] else
      var l, s' := labels[0], Next(s, labels[0]);
      (if Completes(s, l) then [Event(l.t, s'.pcs[l.t].op, l.ok, s'.pcs[l.t].result)] else [])
      + Completed(s', labels[1..])
  }

  /** The atomic history that has these results, from c to c'. */
  ghost predicate Explains(config: Config, c: Conn, events: seq<Event>, c': Conn)
    decreases |events|
  {
    if events == [] then c == c' else
      var e := events[0];
      Apply(config, c, e.op, e.ok).1 == e.result && Explains(config, Apply(config, c, e.op, e.ok).0, events[1..], c')
  }

  lemma {:induction false} InterleavingIsAtomicHistory(s: Sys, labels: seq<Label>)
    requires Inv(s) && IsRun(s, labels)
    ensures Explains(s.config, Abs(s), Completed(s, labels), Abs(Run(s, labels)))
    decreases labels
  {
    if labels != [] {
      var l, s' := labels[0], Next(s, labels[0]);
      StepRefines(s, l);
      StepKeepsInv(s, l);
      InterleavingIsAtomicHistory(s', labels[1..]);
      var rest := Completed(s', labels[1..]);
      if Completes(s, l) {
        var e := Event(l.t, s'.pcs[l.t].op, l.ok, s'.pcs[l.t].result);
        assert Completed(s, labels) == [e] + rest && ([e] + rest)[1..] == rest;
      } else {
        assert Completed(s, labels) == rest;
      }
    }
  }

  // ------------------------------------------------------------- every operation gets done

  /** In no reachable state are all goroutines that have called stuck. */
  lemma SomeoneCanStep(s: Sys, t: Tid) returns (l: Label)
    requires Inv(s) && t < |s.pcs| && !s.pcs[t].Idle?
    ensures Enabled(s, l) && !l.Call?
  {
    var u := t;
    if s.writer.Some? {
      u := s.writer.value;
    } else if s.readers != {} {
      u :| u in s.readers;
    }
    l := if s.pcs[u].Waiting? then Lock(u) else if s.pcs[u].Leaving? then Unlock(u) else Body(u, true);
  }

  ghost predicate LockFree(s: Sys) {
    s.writer.None? && s.readers == {}
  }

  lemma First(s: Sys, l: Label, s': Sys, rest: seq<Label>) returns (labels: seq<Label>)
    requires Enabled(s, l) && s' == Next(s, l) && IsRun(s', rest)
    ensures IsRun(s, labels) && Run(s, labels) == Run(s', rest)
  {
    labels := [l] + rest;
    assert labels[1..] == rest;
  }

  /** When nobody holds the lock, any goroutine can do any operation, as its atomic body, with any answer. */
  lemma OperationGetsDone(s: Sys, t: Tid, op: Op, ok: bool) returns (labels: seq<Label>)
    requires Inv(s) && LockFree(s) && t < |s.pcs| && s.pcs[t].Idle?
    ensures IsRun(s, labels)
    ensures Run(s, labels) == s.(conn := Apply(s.config, s.conn, op, ok).0)
  {
    var s1 := Next(s, Call(t, op));
    StepKeepsInv(s, Call(t, op));
    var s2 := Next(s1, Lock(t));
    StepKeepsInv(s1, Lock(t));
    labels := BodyGetsDone(s2, t, ok);
    labels := First(s1, Lock(t), s2, labels);
    labels := First(s, Call(t, op), s1, labels);
    assert s2.pcs[t := Idle] == s.pcs;
  }

  /** Where t's body leaves the system, once it has done op and left. */
  function Left(s: Sys, t: Tid, op: Op, ok: bool): Sys
    requires t < |s.pcs|
  {
    s.(conn := Apply(s.config, Abs(s), op, ok).0, pcs := s.pcs[t := Idle],
       writer := if Reads(op) then s.writer else None,
       readers := if Reads(op) then s.readers - {t} else s.readers)
  }

  /** The holder of the lock finishes its body and leaves. */
  lemma {:induction false} BodyGetsDone(s: Sys, t: Tid, ok: bool) returns (labels: seq<Label>)
    requires Inv(s) && t < |s.pcs| && Holds(s.pcs[t]) && !s.pcs[t].Leaving?
    ensures IsRun(s, labels) && Run(s, labels) == Left(s, t, OpOf(s.pcs[t]), ok)
    decreases if s.pcs[t].Inside? then 1 else 0
  {
    var s' := OnePart(s, t, ok);
    if s'.pcs[t].Leaving? {
      labels := First(s', Unlock(t), Next(s', Unlock(t)), []);
    } else {
      labels := BodyGetsDone(s', t, ok);
    }
    labels := First(s, Body(t, ok), s', labels);
  }

  lemma OnePart(s: Sys, t: Tid, ok: bool) returns (s': Sys)
    requires Inv(s) && t < |s.pcs| && Holds(s.pcs[t]) && !s.pcs[t].Leaving?
    ensures Enabled(s, Body(t, ok)) && s' == Next(s, Body(t, ok)) && Inv(s') && |s'.pcs| == |s.pcs|
    ensures Holds(s'.pcs[t]) && OpOf(s'.pcs[t]) == OpOf(s.pcs[t])
    ensures if s'.pcs[t].Leaving? then Next(s', Unlock(t)) == Left(s, t, OpOf(s.pcs[t]), ok)
            else
              && !s'.pcs[t].Inside? && s.pcs[t].Inside?
              && Left(s', t, OpOf(s.pcs[t]), ok) == Left(s, t, OpOf(s.pcs[t]), ok)
  {
    var l := Body(t, ok);
    s' := Next(s, l);
    StepKeepsInv(s, l);
    StepRefines(s, l);
    OnlyDiallerSeesConnecting(s', t);
    assert s'.pcs[t := Idle] == s.pcs[t := Idle];
  }

  // ------------------------------------------------------------- acquire, then release

  lemma {:induction false} DialsAndClosesStay(s: Sys, labels: seq<Label>, id: ClientId)
    requires Inv(s) && IsRun(s, labels)
    ensures s.conn.dialled <= Run(s, labels).conn.dialled
    ensures id < s.conn.dialled && s.conn.closes[id] == 1 ==> Run(s, labels).conn.closes[id] == 1
    decreases labels
  {
    if labels != [] {
      StepKeepsInv(s, labels[0]);
      assert Tidy(Abs(s)) && Tidy(Abs(Next(s, labels[0])));
      assert s.conn.closes <= Next(s, labels[0]).conn.closes;
      DialsAndClosesStay(Next(s, labels[0]), labels[1..], id);
    }
  }

  /** The holder's release completes: its client, and every other one dialled so far, has been closed. */
  lemma ReleaseStepCloses(m: Sys, t: Tid, ok: bool, id: ClientId)
    requires Inv(m) && Enabled(m, Body(t, ok)) && Completes(m, Body(t, ok)) && OpOf(m.pcs[t]).Release?
    requires id < m.conn.dialled
    ensures Inv(Next(m, Body(t, ok))) && Next(m, Body(t, ok)).conn.closes[id] == 1
    ensures id < Next(m, Body(t, ok)).conn.dialled
  {
    StepRefines(m, Body(t, ok));
    StepKeepsInv(m, Body(t, ok));
    ReleaseClosesAll(m.config, Abs(m), Release, ok, id);
    ApplyKeepsTidy(m.config, Abs(m), Release, ok);
  }

  /**
   A client handed out by AcquireAsync in any run is open then, and closed once its holder's later Release
   has done its work and for ever after, whatever the others dialled, released or acquired in between.
   */
  lemma AcquiredIsClosedByRelease(config: Config, threads: nat, start: seq<Label>, t: Tid, id: ClientId,
                                  between: seq<Label>, ok: bool, after: seq<Label>)
    requires IsRun(Start(config, threads), start)
    requires var s := Run(Start(config, threads), start);
             t < |s.pcs| && s.pcs[t] == Leaving(Acquire, Client(id)) && IsRun(s, between)
    requires var m := Run(Run(Start(config, threads), start), between);
             Enabled(m, Body(t, ok)) && Completes(m, Body(t, ok)) && OpOf(m.pcs[t]).Release?
             && IsRun(Next(m, Body(t, ok)), after)
    ensures Run(Start(config, threads), start).conn.closes[id] == 0
    ensures Run(Next(Run(Run(Start(config, threads), start), between), Body(t, ok)), after).conn.closes[id] == 1
  {
    StartInv(config, threads);
    RunKeepsInv(Start(config, threads), start);
    var s := Run(Start(config, threads), start);
    assert PlaceInv(s.conn, s.pcs[t]) && Tidy(Abs(s));
    var m := Run(s, between);
    RunKeepsInv(s, between);
    DialsAndClosesStay(s, between, id);
    ReleaseStepCloses(m, t, ok, id);
    DialsAndClosesStay(Next(m, Body(t, ok)), after, id);
  }
}
