/** The session manager's shared state (`APP_CONTEXT`) as the call handlers
    and tasks use it: the session store, the connection store, the property
    manager, the task queue and the outgoing RPC queue. The stores
    themselves (SessionStore, ConnectionStore) are kept as maps, as their
    interfaces describe them. */
module SessionManager {
  import opened Base

  /** WTS_CONNECTSTATE_CLASS. */
  datatype ConnectState =
    | WTSActive | WTSConnected | WTSConnectQuery | WTSShadow | WTSDisconnected
    | WTSIdle | WTSListen | WTSReset | WTSDown | WTSInit

  /** A session of the store, restricted to what the handlers read or set. */
  datatype Session = Session(connectState: ConnectState)

  /** Tasks handed to the executor. */
  datatype Task = EndSessionTask(sessionId: u32)

  /** Calls queued on the outgoing RPC queue towards the front end. */
  datatype OutCall =
    | LogOffUserCall(connectionId: u32)
    | SwitchToCall(connectionId: u32, serviceEndpoint: string)

  /** The property a disconnect consults before ending a session. */
  const SessionTimeoutProperty: string := "session.timeout"

  class ApplicationContext {
    /** SessionStore: session id -> session. */
    var sessions: map<u32, Session>
    /** ConnectionStore: connection id -> id of the session it shows. */
    var connections: map<u32, u32>
    /** The numeric properties of the property manager. */
    var properties: map<string, int>
    /** Tasks queued with addTask, in order. */
    var tasks: seq<Task>
    /** Sessions whose module was stopped, in order. */
    var stoppedModules: seq<u32>
    /** Calls queued on the outgoing RPC queue, in order. */
    var outgoing: seq<OutCall>

    /** The stores agree: 0 (the connection store's "none") is never a
        connection id, every connection shows a session of the store, and no
        session is shown by two connections. */
    predicate Valid()
      reads this
    {
      && 0 !in connections
      && (forall c | c in connections :: connections[c] in sessions)
      && (forall c1, c2 | c1 in connections && c2 in connections && connections[c1] == connections[c2] :: c1 == c2)
    }

    /** The connection store's getConnectionIdForSessionId answer for
        `sessionId`: a connection showing it, or 0 when there is none. */
    predicate IsConnectionFor(sessionId: u32, connectionId: u32)
      reads this
    {
      if connectionId == 0 then forall c | c in connections :: connections[c] != sessionId
      else connectionId in connections && connections[connectionId] == sessionId
    }

    /** getPropertyNumber("session.timeout"), 0 when it is not set. */
    function SessionTimeout(): int
      reads this
    {
      if SessionTimeoutProperty in properties then properties[SessionTimeoutProperty] else 0
    }

    constructor (properties: map<string, int>)
      ensures Valid()
      ensures sessions == map[] && connections == map[] && this.properties == properties
      ensures tasks == [] && stoppedModules == [] && outgoing == []
    {
      sessions := map[];
      connections := map[];
      this.properties := properties;
      tasks := [];
      stoppedModules := [];
      outgoing := [];
    }

    /** session->stopModule() followed by removeSession(sessionId). */
    method StopAndRemoveSession(sessionId: u32)
      requires sessionId in sessions
      modifies this`sessions, this`stoppedModules
      ensures sessions == old(sessions) - {sessionId}
      ensures stoppedModules == old(stoppedModules) + [sessionId]
    {
      stoppedModules := stoppedModules + [sessionId];
      sessions := sessions - {sessionId};
    }
  }
}
