/** Sessions, the per-client session registry and the connection registry
    of the chat relay (manager.py). Identifiers that the source draws from
    `shortuuid` and times it reads from the clock are parameters here. */
module Manager {
  import opened Wrappers

  /** Status tags of a session; RUNNING, ERROR and COMPLETED are used only
      as tags of outbound events, never stored in a session. */
  datatype SessionStatus = CREATED | RUNNING | ERROR | CANCELLED | COMPLETED

  datatype Role = SYSTEM | ASSISTANT | USER

  /** The fresh id and the clock reading a new message is created with. */
  datatype Stamp = Stamp(id: string, timestamp: int)

  /** One entry of a session's history; never changed once created. */
  datatype CompletionMessage = CompletionMessage(
    id: string,
    name: Option<string>,
    role: Role,
    content: Option<string>,
    timestamp: int)

  function NewMessage(stamp: Stamp, role: Role, content: Option<string>, name: Option<string>): CompletionMessage
  {
    CompletionMessage(stamp.id, name, role, content, stamp.timestamp)
  }

  /** Identity of a background completion task. */
  type TaskHandle = nat

  /** Identity of a connection object. */
  type Socket = nat

  /** The exceptions the registries raise. */
  datatype Error =
    | UnknownSession(sessionId: string)                       // ValueError of cancel_session
    | ClientNotConnected(clientId: string)                    // ValueError of check_session
    | SessionNotInClient(clientId: string, sessionId: string) // ValueError of check_session
    | SocketNotConnected                                      // ValueError of list.remove
    | MissingClientKey(clientId: string)                      // KeyError of dict.pop

  /** Python truthiness of an optional string: neither None nor "". */
  predicate Truthy(s: Option<string>) {
    s.Some? && s.value != ""
  }

  /** The cancellation-related part of a session. */
  datatype Lifecycle = Lifecycle(
    status: SessionStatus,
    cancelEvent: bool,
    isCancelled: bool,
    endTime: Option<string>)

  /** The lifecycle of a newly constructed session. */
  const Initial := Lifecycle(CREATED, false, false, None)

  /** The statuses cancel_session acts on. */
  predicate Cancellable(status: SessionStatus) {
    status == CREATED || status == RUNNING
  }

  /** What cancel_session does to one session it targets, at time `now`. */
  function Cancel(st: Lifecycle, now: string): Lifecycle {
    if Cancellable(st.status) then Lifecycle(CANCELLED, true, true, Some(now)) else st
  }

  /** The only two combinations the relay ever produces: an active session
      with both flags clear, or a cancelled one with both flags set. */
  predicate Consistent(st: Lifecycle) {
    || (st.status == CREATED && !st.cancelEvent && !st.isCancelled)
    || (st.status == CANCELLED && st.cancelEvent && st.isCancelled)
  }

  /** Cancelling twice stamps the end time only once. */
  lemma CancelIdempotent(st: Lifecycle, now: string, later: string)
    ensures Cancel(Cancel(st, now), later) == Cancel(st, now)
  {
  }

  /** On a consistent session, cancel always leaves it cancelled and consistent. */
  lemma CancelConsistent(st: Lifecycle, now: string)
    requires Consistent(st)
    ensures Consistent(Cancel(st, now))
    ensures Cancel(st, now).isCancelled && Cancel(st, now).status == CANCELLED
    ensures !st.isCancelled ==> Cancel(st, now).endTime == Some(now)
  {
  }

  class Session {
    const id: string
    var task: Option<TaskHandle>
    var cancelEvent: bool
    var messages: seq<CompletionMessage>
    var status: SessionStatus
    var isCancelled: bool
    var startTime: string
    var endTime: Option<string>

    function State(): Lifecycle
      reads this
    {
      Lifecycle(status, cancelEvent, isCancelled, endTime)
    }

    /** A session created with an already resolved id at time `now`. */
    constructor (id: string, now: string)
      ensures this.id == id && State() == Initial
      ensures messages == [] && task == None && startTime == now
    {
      this.id := id;
      task := None;
      cancelEvent := false;
      messages := [];
      status := CREATED;
      isCancelled := false;
      startTime := now;
      endTime := None;
    }

    /** The changes cancel_session makes to one session it targets. */
    method CancelAt(now: string)
      modifies this
      ensures State() == Cancel(old(State()), now)
      ensures messages == old(messages) && task == old(task) && startTime == old(startTime)
      ensures !old(Cancellable(status)) ==> unchanged(this)
    {
      if Cancellable(status) {
        cancelEvent := true;
        isCancelled := true;
        status := CANCELLED;
        endTime := Some(now);
      }
    }
  }

  /** The sessions of one connected client, by id. */
  class SessionManager {
    var sessions: map<string, Session>

    /** Every session is filed under its own id. */
    ghost predicate Valid()
      reads this
    {
      forall k :: k in sessions ==> sessions[k].id == k
    }

    ghost predicate AllConsistent()
      reads this, sessions.Values
    {
      forall s :: s in sessions.Values ==> Consistent(s.State())
    }

    constructor ()
      ensures sessions == map[] && Valid()
    {
      sessions := map[];
    }

    /** The key create_session files the session under: the given id when it
        is truthy, a freshly generated one otherwise. */
    static function Key(sessionId: Option<string>, freshId: string): string {
      if Truthy(sessionId) then sessionId.value else freshId
    }

    method CreateSession(sessionId: Option<string>, freshId: string, now: string) returns (s: Session)
      requires Valid()
      requires !Truthy(sessionId) ==> freshId !in sessions
      modifies this
      ensures Valid()
      ensures s.id == Key(sessionId, freshId)
      ensures sessions == old(sessions)[s.id := s]
      ensures s.id in old(sessions) ==> s == old(sessions)[s.id]
      ensures s.id !in old(sessions) ==>
        fresh(s) && s.State() == Initial && s.messages == [] && s.task == None && s.startTime == now
      ensures !Truthy(sessionId) ==> fresh(s)
      ensures old(sessions.Values) <= sessions.Values
      ensures old(AllConsistent()) ==> AllConsistent()
    {
      if !Truthy(sessionId) {
        s := new Session(freshId, now);
        sessions := sessions[s.id := s];
      } else if sessionId.value !in sessions {
        s := new Session(sessionId.value, now);
        sessions := sessions[s.id := s];
      } else {
        s := sessions[sessionId.value];
      }
      forall v | v in old(sessions.Values) ensures v in sessions.Values {
        var k :| k in old(sessions) && old(sessions)[k] == v;
        assert k in sessions && sessions[k] == v;
      }
    }

    function GetSession(sessionId: string): (r: Option<Session>)
      reads this
      ensures r.Some? <==> sessionId in sessions
      ensures r.Some? ==> r.value in sessions.Values
      ensures r.Some? && Valid() ==> r.value.id == sessionId
    {
      if sessionId in sessions then Some(sessions[sessionId]) else None
    }

    /** The sessions cancel_session walks over: the named one, or all. */
    ghost function Targets(sessionId: Option<string>): set<Session>
      reads this
    {
      if Truthy(sessionId) then
        (if sessionId.value in sessions then {sessions[sessionId.value]} else {})
      else sessions.Values
    }

    /** cancel_session. The end time of each cancelled session is a clock
        reading of its own, `clock(s)`: the source reads the clock once per
        session. */
    method CancelSession(sessionId: Option<string>, clock: Session -> string) returns (r: Result<bool, Error>)
      modifies sessions.Values
      ensures Truthy(sessionId) && sessionId.value !in sessions ==>
        r == Failure(UnknownSession(sessionId.value))
      ensures !(Truthy(sessionId) && sessionId.value !in sessions) ==>
        r == Success(Truthy(sessionId) || sessions != map[])
      ensures forall s :: s in Targets(sessionId) ==>
        s.State() == Cancel(old(s.State()), clock(s)) && s.messages == old(s.messages) &&
        s.task == old(s.task) && s.startTime == old(s.startTime)
      ensures forall s :: s in sessions.Values && (s !in Targets(sessionId) || !old(Cancellable(s.status))) ==>
        unchanged(s)
      ensures old(AllConsistent()) ==> AllConsistent()
    {
      var targets: set<Session>;
      if Truthy(sessionId) {
        if sessionId.value !in sessions {
          return Failure(UnknownSession(sessionId.value));
        }
        targets := {sessions[sessionId.value]};
      } else {
        if sessions == map[] {
          return Success(false);
        }
        targets := sessions.Values;
      }
      var todo := targets;
      while todo != {}
        invariant todo <= targets
        invariant forall s :: s in targets - todo ==>
          s.State() == Cancel(old(s.State()), clock(s)) && s.messages == old(s.messages) &&
          s.task == old(s.task) && s.startTime == old(s.startTime)
        invariant forall s :: s in sessions.Values && (s !in targets - todo || !old(Cancellable(s.status))) ==>
          unchanged(s)
        decreases todo
      {
        var s :| s in todo;
        s.CancelAt(clock(s));
        todo := todo - {s};
      }
      r := Success(true);
    }
  }

  /** The first position of `x` in `s` (|s| when absent). */
  function FirstIndex<T(==)>(s: seq<T>, x: T): (i: nat)
    ensures i <= |s|
  {
    if s == [] || s[0] == x then 0 else 1 + FirstIndex(s[1..], x)
  }

  /** Python's list.remove once it has found `x`: drop its first occurrence. */
  function RemoveFirst<T(==)>(s: seq<T>, x: T): seq<T> {
    if s == [] then []
    else if s[0] == x then s[1..]
    else [s[0]] + RemoveFirst(s[1..], x)
  }

  /** FirstIndex finds the first occurrence of a present element. */
  lemma {:induction false} FirstIndexFinds<T>(s: seq<T>, x: T)
    requires x in s
    ensures FirstIndex(s, x) < |s| && s[FirstIndex(s, x)] == x && x !in s[..FirstIndex(s, x)]
  {
    if s[0] != x {
      var t := s[1..];
      assert x in t by { assert s == [s[0]] + t; }
      FirstIndexFinds(t, x);
      var j := FirstIndex(t, x);
      assert s[..j + 1] == [s[0]] + t[..j];
    }
  }

  /** RemoveFirst cuts out exactly the first occurrence and keeps the order of the rest. */
  lemma {:induction false} RemoveFirstCutsFirst<T>(s: seq<T>, x: T)
    requires x in s
    ensures FirstIndex(s, x) < |s|
    ensures RemoveFirst(s, x) == s[..FirstIndex(s, x)] + s[FirstIndex(s, x) + 1..]
  {
    FirstIndexFinds(s, x);
    if s[0] == x {
      assert FirstIndex(s, x) == 0;
      assert RemoveFirst(s, x) == s[1..];
      assert s[..0] + s[1..] == s[1..];
    } else {
      var t := s[1..];
      assert x in t by { assert s == [s[0]] + t; }
      RemoveFirstCutsFirst(t, x);
      var j := FirstIndex(t, x);
      assert FirstIndex(s, x) == j + 1;
      assert RemoveFirst(s, x) == [s[0]] + RemoveFirst(t, x);
      assert RemoveFirst(t, x) == t[..j] + t[j + 1..];
      assert s[..j + 1] == [s[0]] + t[..j];
      assert s[j + 2..] == t[j + 1..];
    }
  }

  /** Removing a present element takes exactly one copy of it away. */
  lemma RemoveFirstMultiset<T>(s: seq<T>, x: T)
    requires x in s
    ensures multiset(RemoveFirst(s, x)) == multiset(s) - multiset{x}
  {
    FirstIndexFinds(s, x);
    RemoveFirstCutsFirst(s, x);
    var i := FirstIndex(s, x);
    assert s == s[..i] + [x] + s[i + 1..];
  }

  /** The connection registry: live connections and, per client id, its
      session registry. `clientId` is the client the manager currently serves. */
  class WebSocketManager {
    var clientId: string
    var connections: seq<Socket>
    var sessionManager: map<string, SessionManager>

    constructor (clientId: Option<string>, freshId: string)
      ensures this.clientId == SessionManager.Key(clientId, freshId)
      ensures connections == [] && sessionManager == map[]
    {
      this.clientId := SessionManager.Key(clientId, freshId);
      connections := [];
      sessionManager := map[];
    }

    /** Registers an accepted connection. A new, empty registry is adopted
        only when the current client id is empty or has no registry. */
    method Connect(ws: Socket, clientId: string)
      modifies this
      ensures connections == old(connections) + [ws]
      ensures old(this.clientId == "" || this.clientId !in sessionManager) ==>
        && this.clientId == clientId
        && clientId in sessionManager
        && fresh(sessionManager[clientId])
        && sessionManager[clientId].sessions == map[]
        && sessionManager == old(sessionManager)[clientId := sessionManager[clientId]]
      ensures old(this.clientId != "" && this.clientId in sessionManager) ==>
        this.clientId == old(this.clientId) && sessionManager == old(sessionManager)
    {
      connections := connections + [ws];
      if this.clientId == "" || this.clientId !in sessionManager {
        this.clientId := clientId;
        var registry := new SessionManager();
        sessionManager := sessionManager[clientId := registry];
      }
    }

    /** The registry of the current client, as a set of at most one object. */
    function Registry(): set<SessionManager>
      reads this
    {
      if clientId in sessionManager then {sessionManager[clientId]} else {}
    }

    /** Removes the connection, then pops the current client's registry and
        empties it. The removal has already happened when the pop fails. */
    method Disconnect(ws: Socket) returns (r: Result<(), Error>)
      modifies this, Registry()
      ensures clientId == old(clientId)
      ensures ws !in old(connections) ==>
        r == Failure(SocketNotConnected) && unchanged(this) && unchanged(old(Registry()))
      ensures ws in old(connections) ==> connections == RemoveFirst(old(connections), ws)
      ensures ws in old(connections) && old(clientId !in sessionManager) ==>
        r == Failure(MissingClientKey(clientId)) && sessionManager == old(sessionManager)
      ensures ws in old(connections) && old(clientId in sessionManager) ==>
        && r == Success(())
        && sessionManager == old(sessionManager) - {clientId}
        && old(sessionManager[clientId]).sessions == map[]
    {
      if ws !in connections {
        return Failure(SocketNotConnected);
      }
      connections := RemoveFirst(connections, ws);
      if clientId !in sessionManager {
        return Failure(MissingClientKey(clientId));
      }
      var registry := sessionManager[clientId];
      sessionManager := sessionManager - {clientId};
      registry.sessions := map[];
      r := Success(());
    }

    /** The session `sessionId` of the current client, or the error check_session raises. */
    function CheckSession(sessionId: string): (r: Result<Session, Error>)
      reads this, sessionManager.Values
      ensures r.Success? <==> clientId in sessionManager && sessionId in sessionManager[clientId].sessions
      ensures r.Success? ==> r.value == sessionManager[clientId].sessions[sessionId]
      ensures r.Success? && sessionManager[clientId].Valid() ==> r.value.id == sessionId
      ensures clientId !in sessionManager ==> r == Failure(ClientNotConnected(clientId))
      ensures clientId in sessionManager && sessionId !in sessionManager[clientId].sessions ==>
        r == Failure(SessionNotInClient(clientId, sessionId))
    {
      if clientId !in sessionManager then Failure(ClientNotConnected(clientId))
      else if sessionId !in sessionManager[clientId].sessions then Failure(SessionNotInClient(clientId, sessionId))
      else Success(sessionManager[clientId].sessions[sessionId])
    }

    /** The objects add_history may write: the session check_session finds. */
    function Footprint(sessionId: string): set<Session>
      reads this, sessionManager.Values
    {
      if CheckSession(sessionId).Success? then {CheckSession(sessionId).value} else {}
    }

    method AddHistory(sessionId: string, message: CompletionMessage) returns (r: Result<(), Error>)
      modifies Footprint(sessionId)`messages
      ensures CheckSession(sessionId) == old(CheckSession(sessionId))
      ensures old(CheckSession(sessionId)).Failure? ==> r == Failure(old(CheckSession(sessionId)).error)
      ensures old(CheckSession(sessionId)).Success? ==>
        r == Success(()) &&
        CheckSession(sessionId).value.messages == old(CheckSession(sessionId).value.messages) + [message]
    {
      var found := CheckSession(sessionId);
      if found.Failure? {
        return Failure(found.error);
      }
      var s := found.value;
      s.messages := s.messages + [message];
      r := Success(());
    }

    method GetHistory(sessionId: string) returns (r: Result<seq<CompletionMessage>, Error>)
      ensures r.Success? <==> CheckSession(sessionId).Success?
      ensures r.Success? ==> r.value == CheckSession(sessionId).value.messages
      ensures r.Failure? ==> r.error == CheckSession(sessionId).error
    {
      var found := CheckSession(sessionId);
      if found.Failure? {
        return Failure(found.error);
      }
      r := Success(found.value.messages);
    }
  }
}
