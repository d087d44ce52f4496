/** project-multi/src/store/peerStore.ts: the registry of data connections, the audio calls
    keyed by peer id, and the reconnect counter of `initializePeer`. PeerJS itself is not
    modelled: its events are the methods' calls and a call object is a value. */
module PeerStore {
  import opened Common

  const MaxReconnectAttempts: nat := 5
  const ReconnectDelay: nat := 2000
  const GiveUpMessage: string := "Failed to connect after multiple attempts. Please try again later."

  /** A MediaConnection: its identity and the peer it talks to. */
  datatype Call = Call(handle: nat, peer: string)

  predicate NoDup<T(==)>(s: seq<T>)
  {
    forall i, j :: 0 <= i < j < |s| ==> s[i] != s[j]
  }

  /** `new Set([...connections, c])` on an insertion-ordered set. */
  function AddToSet(s: seq<Connection>, c: Connection): (r: seq<Connection>)
    requires NoDup(s)
    ensures NoDup(r)
    ensures forall x :: x in r <==> x in s || x == c
    ensures c in s ==> r == s
    ensures c !in s ==> r == s + [c]
  {
    if c in s then s else s + [c]
  }

  /** `new Set([...connections].filter(conn => conn !== c))` */
  function RemoveFromSet(s: seq<Connection>, c: Connection): (r: seq<Connection>)
    ensures forall x :: x in r <==> x in s && x != c
    ensures c !in s ==> r == s
    ensures NoDup(s) ==> NoDup(r)
    ensures |r| <= |s|
  {
    if s == [] then []
    else if s[0] == c then RemoveFromSet(s[1..], c)
    else
      assert NoDup(s) ==> NoDup(s[1..]) && s[0] !in s[1..] by {
        if NoDup(s) {
          forall k | 1 <= k < |s| ensures s[k] != s[0] { assert 0 < k; }
        }
      }
      [s[0]] + RemoveFromSet(s[1..], c)
  }

  /** Removing is idempotent, and removing one connection keeps the relative order of the
      others. */
  lemma {:induction false} RemoveLaws(s: seq<Connection>, c: Connection, a: Connection, b: Connection)
    ensures RemoveFromSet(RemoveFromSet(s, c), c) == RemoveFromSet(s, c)
    ensures a != c && b != c && Before(s, a, b) ==> Before(RemoveFromSet(s, c), a, b)
  {
    if s != [] {
      RemoveLaws(s[1..], c, a, b);
      var t := RemoveFromSet(s[1..], c);
      if s[0] != c && a != c && b != c && Before(s, a, b) {
        if s[0] == a {
          assert b in s[1..] by { if !(b in s[1..]) { BeforeMembers(s[1..], a, b); } }
          assert ([s[0]] + t)[0] == a;
          assert b in ([s[0]] + t)[1..];
        } else {
          assert Before(s[1..], a, b);
          assert ([s[0]] + t)[1..] == t;
        }
      }
    }
  }

  /** `a` occurs at an earlier index than `b`. */
  predicate Before(s: seq<Connection>, a: Connection, b: Connection)
    decreases |s|
  {
    s != [] && ((s[0] == a && b in s[1..]) || (s[0] != b && Before(s[1..], a, b)))
  }

  lemma {:induction false} BeforeMembers(s: seq<Connection>, a: Connection, b: Connection)
    requires Before(s, a, b)
    ensures a in s && b in s
    decreases |s|
  {
    if !(s[0] == a && b in s[1..]) {
      BeforeMembers(s[1..], a, b);
    }
  }

  /** The reaction of the peer's 'error' listener. */
  /** A value thrown inside `initializePeer`: an `Error` with its message, or anything else. */
  datatype Thrown = ErrorObject(message: string) | OtherValue

  const InitFailedMessage: string := "Failed to initialize peer"

  /** `error instanceof Error ? error.message : 'Failed to initialize peer'` */
  function CaughtMessage(e: Thrown): (r: string)
    ensures e.ErrorObject? ==> r == e.message
    ensures e.OtherValue? ==> r == InitFailedMessage
  {
    if e.ErrorObject? then e.message else InitFailedMessage
  }

  datatype PeerErrorKind = Disconnected | Network | ServerError | OtherError(name: string)

  datatype ErrorReaction =
    | Reconnect                  // `peer.reconnect()`
    | RetryAfter(delay: nat)     // `setTimeout(initializePeer, delay)`
    | GiveUp                     // the error message is set
    | Ignore

  /** The counter update and reaction for one 'error' event. */
  function ErrorStep(attempts: nat, kind: PeerErrorKind): (r: (nat, ErrorReaction))
    ensures attempts <= MaxReconnectAttempts ==> r.0 <= MaxReconnectAttempts
    ensures (kind == Network || kind == ServerError) && attempts < MaxReconnectAttempts ==>
      r == (attempts + 1, RetryAfter(ReconnectDelay * (attempts + 1)))
    ensures (kind == Network || kind == ServerError) && attempts >= MaxReconnectAttempts ==> r == (attempts, GiveUp)
    ensures kind == Disconnected ==> r == (attempts, Reconnect)
    ensures kind.OtherError? ==> r == (attempts, Ignore)
  {
    match kind
    case Disconnected => (attempts, Reconnect)
    case Network | ServerError =>
      if attempts < MaxReconnectAttempts then (attempts + 1, RetryAfter(ReconnectDelay * (attempts + 1)))
      else (attempts, GiveUp)
    case OtherError(_) => (attempts, Ignore)
  }

  /** The reactions to `n` consecutive network errors starting from `attempts`. */
  function NetworkErrors(attempts: nat, n: nat): seq<ErrorReaction>
    decreases n
  {
    if n == 0 then [] else
      var (a, r) := ErrorStep(attempts, Network);
      [r] + NetworkErrors(a, n - 1)
  }

  /** Starting from a fresh counter `k` already spent, a run of network errors retries after
      2000·(k+1), 2000·(k+2), ... ms up to the fifth attempt and gives up on every error after it. */
  lemma {:induction false} NetworkErrorsBackoff(k: nat, n: nat, i: nat)
    requires k <= MaxReconnectAttempts && i < n
    ensures |NetworkErrors(k, n)| == n
    ensures k + i < MaxReconnectAttempts ==> NetworkErrors(k, n)[i] == RetryAfter(ReconnectDelay * (k + i + 1))
    ensures k + i >= MaxReconnectAttempts ==> NetworkErrors(k, n)[i] == GiveUp
    decreases n
  {
    var (a, r) := ErrorStep(k, Network);
    if n > 1 {
      NetworkErrorsBackoff(a, n - 1, if i > 0 then i - 1 else 0);
    } else {
      assert NetworkErrors(a, 0) == [];
    }
    if i > 0 {
      assert NetworkErrors(k, n)[i] == NetworkErrors(a, n - 1)[i - 1];
      if k < MaxReconnectAttempts {
        assert a == k + 1;
      } else {
        assert a == k;
        assert k + i - 1 >= MaxReconnectAttempts || k + i >= MaxReconnectAttempts;
      }
    }
  }

  class PeerRegistry {
    /** `peer !== null` */
    var hasPeer: bool
    var connections: seq<Connection>
    var audioConnections: map<string, Call>
    /** The calls `removeConnection` has closed, in order. */
    var closedCalls: seq<Call>
    /** `localStream !== null` */
    var hasLocalStream: bool
    var error: Option<string>
    /** The module-level `reconnectAttempts`. */
    var reconnectAttempts: nat
    /** How many times `setupConnection` ran on each connection: each run adds one 'open'
        listener. */
    var openListeners: map<Connection, nat>
    /** How many 'close' (and as many 'error') listeners that call `removeConnection` each
        connection carries; they are attached only when 'open' fires. */
    var removalListeners: map<Connection, nat>

    predicate Valid()
      reads this
    {
      NoDup(connections) && reconnectAttempts <= MaxReconnectAttempts
    }

    constructor ()
      ensures Valid()
      ensures !hasPeer && connections == [] && audioConnections == map[] && closedCalls == []
      ensures !hasLocalStream && error == None && reconnectAttempts == 0
      ensures openListeners == map[] && removalListeners == map[]
    {
      hasPeer := false;
      connections := [];
      audioConnections := map[];
      closedCalls := [];
      hasLocalStream := false;
      error := None;
      reconnectAttempts := 0;
      openListeners := map[];
      removalListeners := map[];
    }

    function Listeners(m: map<Connection, nat>, c: Connection): nat
    {
      if c in m then m[c] else 0
    }

    /** `setupConnection`: one more 'open' listener. */
    method SetupConnection(c: Connection)
      modifies this
      ensures openListeners == old(openListeners)[c := Listeners(old(openListeners), c) + 1]
      ensures connections == old(connections) && audioConnections == old(audioConnections)
      ensures removalListeners == old(removalListeners) && closedCalls == old(closedCalls)
      ensures hasPeer == old(hasPeer) && hasLocalStream == old(hasLocalStream)
      ensures error == old(error) && reconnectAttempts == old(reconnectAttempts)
    {
      openListeners := openListeners[c := Listeners(openListeners, c) + 1];
    }

    /** `addConnection`; `callHandle` names the call `peer.call` would create. */
    method AddConnection(c: Connection, callHandle: nat)
      requires Valid()
      modifies this
      ensures Valid()
      ensures connections == AddToSet(old(connections), c)
      ensures openListeners == old(openListeners)[c := Listeners(old(openListeners), c) + 1]
      ensures hasPeer && hasLocalStream ==> audioConnections == old(audioConnections)[c.peer := Call(callHandle, c.peer)]
      ensures !(hasPeer && hasLocalStream) ==> audioConnections == old(audioConnections)
      ensures removalListeners == old(removalListeners) && closedCalls == old(closedCalls)
      ensures hasPeer == old(hasPeer) && hasLocalStream == old(hasLocalStream)
      ensures error == old(error) && reconnectAttempts == old(reconnectAttempts)
    {
      SetupConnection(c);
      connections := AddToSet(connections, c);
      if hasPeer && hasLocalStream {
        audioConnections := audioConnections[c.peer := Call(callHandle, c.peer)];
      }
    }

    /** `removeConnection`: close and forget the call keyed by the peer id, then drop the
        connection by identity. */
    method RemoveConnection(c: Connection)
      requires Valid()
      modifies this
      ensures Valid()
      ensures connections == RemoveFromSet(old(connections), c)
      ensures audioConnections == old(audioConnections) - {c.peer}
      ensures closedCalls == old(closedCalls) + (if c.peer in old(audioConnections) then [old(audioConnections)[c.peer]] else [])
      ensures openListeners == old(openListeners) && removalListeners == old(removalListeners)
      ensures hasPeer == old(hasPeer) && hasLocalStream == old(hasLocalStream)
      ensures error == old(error) && reconnectAttempts == old(reconnectAttempts)
    {
      if c.peer in audioConnections {
        closedCalls := closedCalls + [audioConnections[c.peer]];
        audioConnections := audioConnections - {c.peer};
      }
      connections := RemoveFromSet(connections, c);
    }

    /** `initializePeer`: a new peer replaces the old one. `thrown` is what `new Peer` throws,
        if anything; then the old peer stays in the store and the `catch` records the error. */
    method InitializePeer(thrown: Option<Thrown>)
      modifies this
      ensures thrown.None? ==> hasPeer && error == old(error)
      ensures thrown.Some? ==> hasPeer == old(hasPeer) && error == Some(CaughtMessage(thrown.value))
      ensures connections == old(connections) && audioConnections == old(audioConnections)
      ensures reconnectAttempts == old(reconnectAttempts)
      ensures openListeners == old(openListeners) && removalListeners == old(removalListeners)
      ensures closedCalls == old(closedCalls) && hasLocalStream == old(hasLocalStream)
    {
      if thrown.Some? {
        error := Some(CaughtMessage(thrown.value));
      } else {
        hasPeer := true;
      }
    }

    /** The peer's 'open' listener. */
    method OnPeerOpen()
      requires Valid()
      modifies this
      ensures Valid() && error == None && reconnectAttempts == 0
      ensures connections == old(connections) && audioConnections == old(audioConnections)
      ensures hasPeer == old(hasPeer) && hasLocalStream == old(hasLocalStream)
      ensures openListeners == old(openListeners) && removalListeners == old(removalListeners)
      ensures closedCalls == old(closedCalls)
    {
      error := None;
      reconnectAttempts := 0;
    }

    /** The peer's 'error' listener; the returned reaction is what it schedules or calls. */
    method OnPeerError(kind: PeerErrorKind) returns (reaction: ErrorReaction)
      requires Valid()
      modifies this
      ensures Valid()
      ensures (reconnectAttempts, reaction) == ErrorStep(old(reconnectAttempts), kind)
      ensures reaction == GiveUp ==> error == Some(GiveUpMessage)
      ensures reaction != GiveUp ==> error == old(error)
      ensures connections == old(connections) && audioConnections == old(audioConnections)
      ensures hasPeer == old(hasPeer) && hasLocalStream == old(hasLocalStream)
      ensures openListeners == old(openListeners) && removalListeners == old(removalListeners)
      ensures closedCalls == old(closedCalls)
    {
      if kind == Disconnected {
        reaction := Reconnect;
      } else if kind == Network || kind == ServerError {
        if reconnectAttempts < MaxReconnectAttempts {
          reconnectAttempts := reconnectAttempts + 1;
          reaction := RetryAfter(ReconnectDelay * reconnectAttempts);
        } else {
          error := Some(GiveUpMessage);
          reaction := GiveUp;
        }
      } else {
        reaction := Ignore;
      }
    }

    /** The peer's 'connection' listener: `setupConnection` and then `addConnection`, which
        runs `setupConnection` a second time. */
    method OnIncomingConnection(c: Connection, callHandle: nat)
      requires Valid()
      modifies this
      ensures Valid()
      ensures connections == AddToSet(old(connections), c)
      ensures openListeners == old(openListeners)[c := Listeners(old(openListeners), c) + 2]
      ensures hasPeer && hasLocalStream ==> audioConnections == old(audioConnections)[c.peer := Call(callHandle, c.peer)]
      ensures !(hasPeer && hasLocalStream) ==> audioConnections == old(audioConnections)
      ensures removalListeners == old(removalListeners) && closedCalls == old(closedCalls)
      ensures hasPeer == old(hasPeer) && hasLocalStream == old(hasLocalStream)
      ensures error == old(error) && reconnectAttempts == old(reconnectAttempts)
    {
      SetupConnection(c);
      AddConnection(c, callHandle);
    }

    /** The connection's 'open' event: every 'open' listener attaches one 'close' and one
        'error' listener that remove the connection. */
    method OnConnectionOpen(c: Connection)
      requires Valid()
      modifies this
      ensures Valid()
      ensures removalListeners == old(removalListeners)[c := Listeners(old(removalListeners), c) + Listeners(old(openListeners), c)]
      ensures connections == old(connections) && audioConnections == old(audioConnections)
      ensures openListeners == old(openListeners) && closedCalls == old(closedCalls)
      ensures hasPeer == old(hasPeer) && hasLocalStream == old(hasLocalStream)
      ensures error == old(error) && reconnectAttempts == old(reconnectAttempts)
    {
      removalListeners := removalListeners[c := Listeners(removalListeners, c) + Listeners(openListeners, c)];
    }

    /** The connection's 'close' (or 'error') event: each attached listener calls
        `removeConnection`. A connection that never opened carries none and stays; otherwise
        the repeated calls leave the state of a single removal. */
    method OnConnectionClose(c: Connection)
      requires Valid()
      modifies this
      ensures Valid()
      ensures Listeners(old(removalListeners), c) == 0 ==>
        connections == old(connections) && audioConnections == old(audioConnections) && closedCalls == old(closedCalls)
      ensures Listeners(old(removalListeners), c) > 0 ==>
        && connections == RemoveFromSet(old(connections), c)
        && audioConnections == old(audioConnections) - {c.peer}
        && closedCalls == old(closedCalls) + (if c.peer in old(audioConnections) then [old(audioConnections)[c.peer]] else [])
      ensures openListeners == old(openListeners) && removalListeners == old(removalListeners)
      ensures hasPeer == old(hasPeer) && hasLocalStream == old(hasLocalStream)
      ensures error == old(error) && reconnectAttempts == old(reconnectAttempts)
    {
      var n := Listeners(removalListeners, c);
      var i := 0;
      while i < n
        invariant 0 <= i <= n && Valid()
        invariant i == 0 ==> connections == old(connections) && audioConnections == old(audioConnections) && closedCalls == old(closedCalls)
        invariant i > 0 ==>
          && connections == RemoveFromSet(old(connections), c)
          && audioConnections == old(audioConnections) - {c.peer}
          && closedCalls == old(closedCalls) + (if c.peer in old(audioConnections) then [old(audioConnections)[c.peer]] else [])
        invariant openListeners == old(openListeners) && removalListeners == old(removalListeners)
        invariant hasPeer == old(hasPeer) && hasLocalStream == old(hasLocalStream)
        invariant error == old(error) && reconnectAttempts == old(reconnectAttempts)
      {
        RemoveLaws(old(connections), c, c, c);
        RemoveConnection(c);
        i := i + 1;
      }
    }

    /** The peer's 'call' listener: answered and recorded only with a local stream. */
    method OnCall(call: Call)
      requires Valid()
      modifies this
      ensures Valid()
      ensures old(hasLocalStream) ==> audioConnections == old(audioConnections)[call.peer := call]
      ensures !old(hasLocalStream) ==> audioConnections == old(audioConnections)
      ensures connections == old(connections) && closedCalls == old(closedCalls)
      ensures openListeners == old(openListeners) && removalListeners == old(removalListeners)
      ensures hasPeer == old(hasPeer) && hasLocalStream == old(hasLocalStream)
      ensures error == old(error) && reconnectAttempts == old(reconnectAttempts)
    {
      if hasLocalStream {
        audioConnections := audioConnections[call.peer := call];
      }
    }
  }

  /** Re-adding a connection that is already present changes nothing. */
  lemma AddIdempotent(s: seq<Connection>, c: Connection)
    requires NoDup(s)
    ensures AddToSet(AddToSet(s, c), c) == AddToSet(s, c)
  {
  }
}
