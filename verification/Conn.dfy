/**
 RouterConn of internal/collector/pool.go: one router's client and state. The lock-protected bodies are
 given as functions on the connection's value and as the methods of the class. Clients are numbered in the
 order they are dialled; the network decides whether a dial, a command or nothing succeeds.
 */
module Conn {
  import opened Wrappers
  import opened Int64
  import opened Backoff

  type ClientId = nat

  datatype ConnState = Disconnected | Connecting | Connected

  /** dialled clients have the numbers below `dialled`; closes counts Close calls; async, those made asynchronous. */
  datatype Conn = Conn(
    client: Option<ClientId>,
    state: ConnState,
    delay: int,
    dialled: nat,
    closes: multiset<ClientId>,
    async: set<ClientId>)

  datatype Config = Config(interval: int, maxInterval: int)

  function New(config: Config): (c: Conn)
    ensures c.client == None && c.state == Disconnected && c.dialled == 0 && c.closes == multiset{} && c.async == {}
    ensures config.interval > 0 ==> c.delay == config.interval
  {
    Conn(None, Disconnected, DefaultInterval(config.interval), 0, multiset{}, {})
  }

  function Interval(config: Config): (d: int)
    ensures config.interval > 0 ==> d == config.interval
  {
    DefaultInterval(config.interval)
  }

  function MaxInterval(config: Config): (d: int)
    ensures config.maxInterval > 0 ==> d == config.maxInterval
  {
    DefaultMax(config.maxInterval)
  }

  datatype Op = Connect | Acquire | Release | Close | IsAlive | Execute | State | Backoff

  datatype Result =
    | Done                    // nil error, or no result
    | Failed                  // an error
    | Client(id: ClientId)
    | Alive(alive: bool)
    | Replied(ok: bool)
    | StateIs(state: ConnState)
    | Wait(delay: int)

  predicate IsConnected(c: Conn) {
    c.state.Connected? && c.client.Some?
  }

  function CloseClient(c: Conn): Conn {
    match c.client
    case Some(id) => c.(closes := c.closes + multiset{id}, client := None, state := Disconnected)
    case None => c.(state := Disconnected)
  }

  /** Each lock-protected body as one step. ok is what the network does. */
  function Apply(config: Config, c: Conn, op: Op, ok: bool): (Conn, Result) {
    match op
    case Connect =>
      if IsConnected(c) then (c, Done)
      else if ok then
        (c.(client := Some(c.dialled), state := Connected, delay := Interval(config), dialled := c.dialled + 1), Done)
      else (c.(state := Disconnected), Failed)
    case Acquire =>
      if IsConnected(c) then (c.(async := c.async + {c.client.value}), Client(c.client.value)) else (c, Failed)
    case Release => (CloseClient(c), Done)
    case Close => (CloseClient(c), Done)
    case IsAlive => (c, Alive(IsConnected(c) && ok))
    case Execute => (c, if IsConnected(c) then Replied(ok) else Failed)
    case State => (c, StateIs(c.state))
    case Backoff => (c.(delay := Doubled(c.delay, MaxInterval(config))), Wait(c.delay))
  }

  /** The current client is open, every other dialled client has been closed exactly once, and nothing else ever was. */
  ghost predicate Tidy(c: Conn) {
    && (c.client.Some? ==> c.client.value < c.dialled)
    && (forall id: ClientId :: c.closes[id] == if id < c.dialled && c.client != Some(id) then 1 else 0)
    && (c.state.Connected? <==> c.client.Some?)
    && !c.state.Connecting?
  }

  /** No client is left: each one dialled has been closed exactly once. */
  ghost predicate Shut(c: Conn) {
    c.client.None? && c.state.Disconnected? && forall id: ClientId | id < c.dialled :: c.closes[id] == 1
  }

  /** What each operation does to a connection that has a client, and what it answers. */
  lemma ApplyWithClient(config: Config, c: Conn, op: Op, ok: bool)
    requires Tidy(c) && c.client.Some?
    ensures var (c', result) := Apply(config, c, op, ok); var id := c.client.value;
            match op
            case Connect => c' == c && result == Done
            case Acquire => c' == c.(async := c.async + {id}) && result == Client(id)
            case Release =>
              c' == c.(client := None, state := Disconnected, closes := c.closes + multiset{id}) && result == Done
            case Close =>
              c' == c.(client := None, state := Disconnected, closes := c.closes + multiset{id}) && result == Done
            case IsAlive => c' == c && result == Alive(ok)
            case Execute => c' == c && result == Replied(ok)
            case State => c' == c && result == StateIs(Connected)
            case Backoff => c' == c.(delay := c'.delay) && result == Wait(c.delay)
  {
  }

  /** And to one that has none. */
  lemma ApplyWithoutClient(config: Config, c: Conn, op: Op, ok: bool)
    requires Tidy(c) && c.client.None?
    ensures var (c', result) := Apply(config, c, op, ok);
            match op
            case Connect =>
              if ok then
                c' == c.(client := Some(c.dialled), state := Connected, delay := Interval(config),
                         dialled := c.dialled + 1)
                && result == Done
              else c' == c && result == Failed
            case Acquire => c' == c && result == Failed
            case Release => c' == c && result == Done
            case Close => c' == c && result == Done
            case IsAlive => c' == c && result == Alive(false)
            case Execute => c' == c && result == Failed
            case State => c' == c && result == StateIs(Disconnected)
            case Backoff => c' == c.(delay := c'.delay) && result == Wait(c.delay)
  {
  }

  lemma ApplyKeepsTidy(config: Config, c: Conn, op: Op, ok: bool)
    requires Tidy(c)
    ensures Tidy(Apply(config, c, op, ok).0)
    ensures c.dialled <= Apply(config, c, op, ok).0.dialled && c.closes <= Apply(config, c, op, ok).0.closes
  {
  }

  /** Once a release or close returns, every client dialled so far has been closed. */
  lemma ReleaseClosesAll(config: Config, c: Conn, op: Op, ok: bool, id: ClientId)
    requires Tidy(c) && (op.Release? || op.Close?) && id < c.dialled
    ensures Apply(config, c, op, ok).0.closes[id] == 1 && Apply(config, c, op, ok).0.client.None?
  {
  }

  class RouterConn {
    const config: Config
    var client: Option<ClientId>
    var state: ConnState
    var reconnectDelay: int
    var dialled: nat
    ghost var closes: multiset<ClientId>
    ghost var async: set<ClientId>

    ghost function Abs(): Conn
      reads this
    {
      Conn.Conn(client, state, reconnectDelay, dialled, closes, async)
    }

    constructor (config: Config)
      ensures this.config == config && Abs() == New(config) && Tidy(Abs())
    {
      this.config := config;
      client, state, reconnectDelay := None, Disconnected, DefaultInterval(config.interval);
      dialled, closes, async := 0, multiset{}, {};
    }

    /** A no-op when connected; else dials, and on success resets the backoff. */
    method DoConnect(dialOk: bool) returns (failed: bool)
      requires Tidy(Abs())
      modifies this
      ensures Tidy(Abs()) && Abs() == Apply(config, old(Abs()), Connect, dialOk).0
      ensures !failed ==> client.Some? && state == Connected
      ensures !failed && old(client).None? ==> client == Some(old(dialled)) && reconnectDelay == Interval(config)
      ensures failed <==> old(client).None? && !dialOk
      ensures old(client).Some? || failed ==> Abs() == old(Abs())
      ensures closes == old(closes) && async == old(async)
      ensures dialled == if old(client).None? && dialOk then old(dialled) + 1 else old(dialled)
    {
      if state == Connected && client.Some? {
        return false;
      }
      state := Connecting;
      if !dialOk {
        state := Disconnected;
        return true;
      }
      client := Some(dialled);
      dialled := dialled + 1;
      state := Connected;
      reconnectDelay := DefaultInterval(config.interval);
      return false;
    }

    /** The locked part between two attempts: hand out the delay, then double it up to the cap. */
    method NextDelay() returns (delay: int)
      modifies this`reconnectDelay
      ensures delay == old(reconnectDelay) && Abs() == Apply(config, old(Abs()), Backoff, true).0
      ensures 0 <= delay < TWO_62 ==>
                reconnectDelay == if 2 * delay <= MaxInterval(config) then 2 * delay else MaxInterval(config)
    {
      delay := reconnectDelay;
      reconnectDelay := Min(Wrap(reconnectDelay * 2), DefaultMax(config.maxInterval));
    }

    /** One round of the loop, with the wait it made, if any. */
    method Round(attempt: Attempt) returns (ended: Option<Outcome>, wait: Option<int>)
      requires Tidy(Abs())
      modifies this
      ensures Tidy(Abs())
      ensures (ended, wait.Some?) == RoundEnding(attempt, old(client).Some?)
      ensures ended == Some(Reconnected) ==> client.Some? && (old(client).None? ==> reconnectDelay == Interval(config))
      ensures ended != Some(Reconnected) ==> client == old(client)
      ensures wait.Some? ==>
                wait.value == old(reconnectDelay) && reconnectDelay == Doubled(wait.value, MaxInterval(config))
      ensures wait.None? && ended != Some(Reconnected) ==> reconnectDelay == old(reconnectDelay)
    {
      if attempt.doneBefore {
        return Some(Cancelled), None;
      }
      var failed := DoConnect(attempt.dialOk);
      if !failed {
        return Some(Reconnected), None;
      }
      var delay := NextDelay();
      return if attempt.doneInWait then Some(Cancelled) else None, Some(delay);
    }

    /** Ends as the attempts say, having waited the backoff's delays from the one it found. */
    method ReconnectWithBackoff(attempts: seq<Attempt>) returns (outcome: Outcome, waits: seq<int>)
      requires Tidy(Abs())
      modifies this
      ensures Tidy(Abs())
      ensures (outcome, |waits|) == Ending(attempts, old(client).Some?)
      ensures AreDelays(waits, old(reconnectDelay), MaxInterval(config))
      ensures outcome == Reconnected ==> client.Some? && (old(client).None? ==> reconnectDelay == Interval(config))
      ensures forall k: nat | IsFirstDecisive(attempts, old(client).Some?, k) ::
                var a, connects := attempts[k], old(client).Some? || attempts[k].dialOk;
                && outcome == (if !a.doneBefore && connects then Reconnected else Cancelled)
                && |waits| == k + (if !a.doneBefore && !connects then 1 else 0)
      ensures (forall k | 0 <= k < |attempts| :: !Decides(attempts[k], old(client).Some?)) ==>
                outcome == StillTrying && |waits| == |attempts|
    {
      ghost var first := DecisiveOrNone(attempts, client.Some?);
      EndsAtFirst(attempts, client.Some?, first);
      outcome, waits := RetryLoop(attempts);
    }

    method RetryLoop(attempts: seq<Attempt>) returns (outcome: Outcome, waits: seq<int>)
      requires Tidy(Abs())
      modifies this
      ensures Tidy(Abs())
      ensures (outcome, |waits|) == Ending(attempts, old(client).Some?)
      ensures AreDelays(waits, old(reconnectDelay), MaxInterval(config))
      ensures outcome == Reconnected ==> client.Some? && (old(client).None? ==> reconnectDelay == Interval(config))
    {
      waits := [];
      var left := attempts;
      while left != []
        invariant Tidy(Abs()) && client == old(client)
        invariant reconnectDelay == Delay(old(reconnectDelay), MaxInterval(config), |waits|)
        invariant AreDelays(waits, old(reconnectDelay), MaxInterval(config))
        invariant var (outcome, more) := Ending(left, client.Some?);
                  Ending(attempts, client.Some?) == (outcome, more + |waits|)
        decreases |left|
      {
        var ended, wait := Round(left[0]);
        if wait.Some? {
          OneMoreDelay(waits, old(reconnectDelay), MaxInterval(config), wait.value);
          waits := waits + [wait.value];
        }
        if ended.Some? {
          return ended.value, waits;
        }
        left := left[1..];
      }
      outcome := StillTrying;
    }

    method AcquireAsync() returns (acquired: Option<ClientId>)
      requires Tidy(Abs())
      modifies this`async
      ensures acquired == client
      ensures async == if acquired.Some? then old(async) + {acquired.value} else old(async)
      ensures Abs() == Apply(config, old(Abs()), Acquire, true).0
      ensures acquired.Some? ==> acquired.value in async && closes[acquired.value] == 0
    {
      if state != Connected || client.None? {
        return None;
      }
      async := async + {client.value};
      acquired := client;
    }

    /** Closes whatever client is current; with it, every client ever dialled has been closed exactly once. */
    method DoRelease()
      requires Tidy(Abs())
      modifies this
      ensures Tidy(Abs()) && Abs() == Apply(config, old(Abs()), Release, true).0
      ensures client.None? && state == Disconnected && dialled == old(dialled) && reconnectDelay == old(reconnectDelay)
      ensures forall id: ClientId | id < dialled :: closes[id] == 1
    {
      DoClose();
    }

    method DoClose()
      requires Tidy(Abs())
      modifies this
      ensures Tidy(Abs()) && Abs() == Apply(config, old(Abs()), Close, true).0
      ensures client.None? && state == Disconnected && dialled == old(dialled) && reconnectDelay == old(reconnectDelay)
      ensures forall id: ClientId | id < dialled :: closes[id] == 1
    {
      if client.Some? {
        closes := closes + multiset{client.value};
        client := None;
      }
      state := Disconnected;
    }

    method CheckAlive(reply: bool) returns (alive: bool)
      ensures alive <==> state == Connected && client.Some? && reply
    {
      if state != Connected || client.None? {
        return false;
      }
      alive := reply;
    }

    /** The reply or its error, and the client the command ran on, if it ran. */
    method ExecuteContext(reply: bool) returns (result: Result, ghost on: Option<ClientId>)
      requires Tidy(Abs())
      ensures result == Apply(config, Abs(), Execute, reply).1
      ensures result == if client.Some? then Replied(reply) else Failed
      ensures on == client && (result.Failed? <==> on.None?) && (on.Some? ==> closes[on.value] == 0)
    {
      if state != Connected || client.None? {
        return Failed, None;
      }
      return Replied(reply), client;
    }
  }

  /** One round of ReconnectWithBackoff as the environment plays it. */
  datatype Attempt = Attempt(doneBefore: bool, dialOk: bool, doneInWait: bool)

  datatype Outcome = Reconnected | Cancelled | StillTrying

  /** How one attempt ends the loop, if it does, and whether it waits. */
  function RoundEnding(attempt: Attempt, connected: bool): (Option<Outcome>, bool) {
    if attempt.doneBefore then (Some(Cancelled), false)
    else if connected || attempt.dialOk then (Some(Reconnected), false)
    else (if attempt.doneInWait then Some(Cancelled) else None, true)
  }

  /** The attempt ends the loop: the context is done, or the connection is there. */
  predicate Decides(a: Attempt, connected: bool) {
    a.doneBefore || connected || a.dialOk || a.doneInWait
  }

  ghost predicate IsFirstDecisive(attempts: seq<Attempt>, connected: bool, k: nat) {
    k < |attempts| && Decides(attempts[k], connected) && forall j | 0 <= j < k :: !Decides(attempts[j], connected)
  }

  lemma DecisiveOrNone(attempts: seq<Attempt>, connected: bool) returns (k: nat)
    ensures k <= |attempts| && (k < |attempts| ==> IsFirstDecisive(attempts, connected, k))
    ensures forall j | 0 <= j < k :: !Decides(attempts[j], connected)
  {
    k := 0;
    while k < |attempts| && !Decides(attempts[k], connected)
      invariant k <= |attempts| && forall j | 0 <= j < k :: !Decides(attempts[j], connected)
    {
      k := k + 1;
    }
  }

  lemma {:induction false} EndsAtFirst(attempts: seq<Attempt>, connected: bool, k: nat)
    requires k <= |attempts| && forall j | 0 <= j < k :: !Decides(attempts[j], connected)
    requires k < |attempts| ==> Decides(attempts[k], connected)
    ensures k == |attempts| ==> Ending(attempts, connected) == (StillTrying, k)
    ensures k < |attempts| ==>
              var a, connects := attempts[k], connected || attempts[k].dialOk;
              Ending(attempts, connected) == (if !a.doneBefore && connects then Reconnected else Cancelled,
                                              k + (if !a.doneBefore && !connects then 1 else 0))
  {
    if k > 0 {
      EndsAtFirst(attempts[1..], connected, k - 1);
    }
  }

  /** How the attempts end, and after how many waits. */
  function Ending(attempts: seq<Attempt>, connected: bool): (Outcome, nat) {
    if attempts == [] then (StillTrying, 0) else
      var (ended, waited) := RoundEnding(attempts[0], connected);
      var one := if waited then 1 else 0;
      match ended
      case Some(outcome) => (outcome, one)
      case None =>
        var (outcome, waits) := Ending(attempts[1..], connected);
        (outcome, one + waits)
  }
}
