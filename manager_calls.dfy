/** The session manager's handlers of calls from the front end
    (manager/call/CallIn*.cpp) and the tasks that end a session or switch a
    connection to another session (manager/call/TaskEndSession.cpp,
    session-manager/common/call/TaskSwitchTo.cpp).

    Requests and responses are the decoded messages; their protocol buffer
    packing is not modelled. An outgoing call blocks until the front end
    answers, so its answer is a parameter. */
module ManagerCalls {
  import opened Base
  import opened SessionManager

  datatype DisconnectUserRequest = DisconnectUserRequest(connectionId: u32)
  datatype DisconnectUserResponse = DisconnectUserResponse(connectionId: u32)
  datatype LogOffUserRequest = LogOffUserRequest(connectionId: u32)
  datatype LogOffUserResponse = LogOffUserResponse(connectionId: u32)
  datatype EndSessionRequest = EndSessionRequest(sessionId: u32)
  datatype EndSessionResponse = EndSessionResponse(status: u32, sessionId: u32)

  /** CallInDisconnectUserSession: the front end reports that a client went
      away; its session is kept, disconnected, and ended at once when no
      session timeout is configured. */
  class CallInDisconnectUserSession {
    var connectionId: u32
    var disconnected: bool

    constructor ()
      ensures connectionId == 0 && !disconnected
    {
      connectionId := 0;
      disconnected := false;
    }

    /** decodeRequest: the connection id comes from the request. */
    method DecodeRequest(request: DisconnectUserRequest) returns (r: int)
      modifies this`connectionId
      ensures r == 0 && connectionId == request.connectionId
    {
      connectionId := request.connectionId;
      r := 0;
    }

    /** encodeResponse: the response echoes the decoded connection id. */
    method EncodeResponse() returns (r: int, response: DisconnectUserResponse)
      ensures r == 0 && response.connectionId == connectionId
    {
      response := DisconnectUserResponse(connectionId);
      r := 0;
    }

    /** doStuff. An unknown connection, or one whose session is gone, gives
        -1 and changes no store. Otherwise the session becomes
        WTSDisconnected and stays, the connection is removed, and one
        TaskEndSession for the session is queued exactly when the session
        timeout is 0 (or unset). The stores stay consistent. */
    method DoStuff(ctx: ApplicationContext) returns (r: int)
      modifies this`disconnected, ctx`sessions, ctx`connections, ctx`tasks
      ensures connectionId !in old(ctx.connections) ==> r == -1 && !disconnected && unchanged(ctx)
      ensures connectionId in old(ctx.connections) && old(ctx.connections)[connectionId] !in old(ctx.sessions) ==>
        r == -1 && !disconnected && unchanged(ctx)
      ensures connectionId in old(ctx.connections) && old(ctx.connections)[connectionId] in old(ctx.sessions) ==>
        var sessionId := old(ctx.connections)[connectionId];
        && r == 0 && disconnected
        && ctx.sessions == old(ctx.sessions)[sessionId := old(ctx.sessions)[sessionId].(connectState := WTSDisconnected)]
        && ctx.connections == old(ctx.connections) - {connectionId}
        && ctx.tasks == old(ctx.tasks) + (if ctx.SessionTimeout() == 0 then [EndSessionTask(sessionId)] else [])
      ensures old(ctx.Valid()) ==> ctx.Valid()
    {
      if connectionId !in ctx.connections {
        disconnected := false;
        return -1;
      }
      var sessionId := ctx.connections[connectionId];
      if sessionId !in ctx.sessions {
        disconnected := false;
        return -1;
      }
      ctx.sessions := ctx.sessions[sessionId := ctx.sessions[sessionId].(connectState := WTSDisconnected)];
      ctx.connections := ctx.connections - {connectionId};
      var timeout := ctx.SessionTimeout();
      if timeout == 0 {
        ctx.tasks := ctx.tasks + [EndSessionTask(sessionId)];
      }
      disconnected := true;
      r := 0;
    }
  }

  /** CallInLogOffUserSession: the front end asks to end the session behind
      a connection. */
  class CallInLogOffUserSession {
    var connectionId: u32
    var loggedOff: bool

    constructor ()
      ensures connectionId == 0 && !loggedOff
    {
      connectionId := 0;
      loggedOff := false;
    }

    /** decodeRequest: the connection id comes from the request. */
    method DecodeRequest(request: LogOffUserRequest) returns (r: int)
      modifies this`connectionId
      ensures r == 0 && connectionId == request.connectionId
    {
      connectionId := request.connectionId;
      r := 0;
    }

    /** encodeResponse: the response echoes the decoded connection id. */
    method EncodeResponse() returns (r: int, response: LogOffUserResponse)
      ensures r == 0 && response.connectionId == connectionId
    {
      response := LogOffUserResponse(connectionId);
      r := 0;
    }

    /** doStuff. An unknown connection, or one whose session is gone, gives
        -1 and changes no store. Otherwise the session's module is stopped,
        the session and the connection are removed, and the call gives 0.
        The stores stay consistent. */
    method DoStuff(ctx: ApplicationContext) returns (r: int)
      modifies this`loggedOff, ctx`sessions, ctx`connections, ctx`stoppedModules
      ensures connectionId !in old(ctx.connections) ==> r == -1 && !loggedOff && unchanged(ctx)
      ensures connectionId in old(ctx.connections) && old(ctx.connections)[connectionId] !in old(ctx.sessions) ==>
        r == -1 && !loggedOff && unchanged(ctx)
      ensures connectionId in old(ctx.connections) && old(ctx.connections)[connectionId] in old(ctx.sessions) ==>
        var sessionId := old(ctx.connections)[connectionId];
        && r == 0 && loggedOff
        && ctx.stoppedModules == old(ctx.stoppedModules) + [sessionId]
        && ctx.sessions == old(ctx.sessions) - {sessionId}
        && ctx.connections == old(ctx.connections) - {connectionId}
      ensures old(ctx.Valid()) ==> ctx.Valid()
    {
      if connectionId !in ctx.connections {
        loggedOff := false;
        return -1;
      }
      var sessionId := ctx.connections[connectionId];
      if sessionId !in ctx.sessions {
        loggedOff := false;
        return -1;
      }
      ctx.StopAndRemoveSession(sessionId);
      ctx.connections := ctx.connections - {connectionId};
      loggedOff := true;
      r := 0;
    }
  }

  /** CallInEndSession: the front end asks to end a session. */
  class CallInEndSession {
    var sessionId: u32
    var success: bool

    constructor ()
      ensures sessionId == 0 && !success
    {
      sessionId := 0;
      success := false;
    }

    /** decodeRequest: the session id comes from the request. */
    method DecodeRequest(request: EndSessionRequest) returns (r: int)
      modifies this`sessionId
      ensures r == 0 && sessionId == request.sessionId
    {
      sessionId := request.sessionId;
      r := 0;
    }

    /** encodeResponse: status 0 and the decoded session id. */
    method EncodeResponse() returns (r: int, response: EndSessionResponse)
      ensures r == 0 && response.status == 0 && response.sessionId == sessionId
    {
      response := EndSessionResponse(0, sessionId);
      r := 0;
    }

    /** doStuff: queues one TaskEndSession for the session and always
        succeeds. */
    method DoStuff(ctx: ApplicationContext) returns (r: int)
      modifies this`success, ctx`tasks
      ensures r == 0 && success
      ensures ctx.tasks == old(ctx.tasks) + [EndSessionTask(sessionId)]
    {
      ctx.tasks := ctx.tasks + [EndSessionTask(sessionId)];
      success := true;
      r := 0;
    }
  }

  /** The front end's answer to CallOutLogOffUserSession: the RPC result and
      whether it logged the connection off. */
  datatype LogOffAnswer = LogOffAnswer(result: int, loggedOff: bool)

  /** TaskEndSession: ends a session, first logging off the connection that
      shows it, if any. */
  class TaskEndSession {
    var sessionId: u32

    /** A task for `sessionId` (setSessionId). */
    constructor (sessionId: u32)
      ensures this.sessionId == sessionId
    {
      this.sessionId := sessionId;
    }

    /** stopSession: stops and removes the session when the store has it. */
    method StopSession(ctx: ApplicationContext)
      modifies ctx`sessions, ctx`stoppedModules
      ensures ctx.sessions == old(ctx.sessions) - {sessionId}
      ensures ctx.stoppedModules == old(ctx.stoppedModules) + (if sessionId in old(ctx.sessions) then [sessionId] else [])
    {
      if sessionId in ctx.sessions {
        ctx.StopAndRemoveSession(sessionId);
      }
    }

    /** run, given the connection the store reports for the session and the
        front end's answer to the logoff call. Without a connection the
        session is stopped at once. Otherwise a logoff call for the
        connection is queued; only a successful logoff stops the session
        and removes the connection, and any other answer changes no store.
        The stores stay consistent. */
    method Run(ctx: ApplicationContext, connectionId: u32, answer: LogOffAnswer)
      requires ctx.IsConnectionFor(sessionId, connectionId)
      modifies ctx`sessions, ctx`connections, ctx`stoppedModules, ctx`outgoing
      ensures connectionId == 0 ==>
        && ctx.outgoing == old(ctx.outgoing) && ctx.connections == old(ctx.connections)
        && ctx.sessions == old(ctx.sessions) - {sessionId}
        && ctx.stoppedModules == old(ctx.stoppedModules) + (if sessionId in old(ctx.sessions) then [sessionId] else [])
      ensures connectionId != 0 ==> ctx.outgoing == old(ctx.outgoing) + [LogOffUserCall(connectionId)]
      ensures connectionId != 0 && answer.result == 0 && answer.loggedOff ==>
        && ctx.sessions == old(ctx.sessions) - {sessionId}
        && ctx.stoppedModules == old(ctx.stoppedModules) + (if sessionId in old(ctx.sessions) then [sessionId] else [])
        && ctx.connections == old(ctx.connections) - {connectionId}
      ensures connectionId != 0 && !(answer.result == 0 && answer.loggedOff) ==>
        && ctx.sessions == old(ctx.sessions) && ctx.connections == old(ctx.connections)
        && ctx.stoppedModules == old(ctx.stoppedModules)
      ensures old(ctx.Valid()) ==> ctx.Valid()
    {
      if connectionId == 0 {
        StopSession(ctx);
      } else {
        ctx.outgoing := ctx.outgoing + [LogOffUserCall(connectionId)];
        if answer.result == 0 {
          if answer.loggedOff {
            StopSession(ctx);
            ctx.connections := ctx.connections - {connectionId};
          }
        }
      }
    }
  }

  /** The front end's answer to CallOutSwitchTo: the RPC result, whether the
      answer failed to decode, and the success flag it carries. */
  datatype SwitchAnswer = SwitchAnswer(result: int, decodeFailed: bool, success: bool)

  predicate SwitchFailed(answer: SwitchAnswer) {
    answer.result != 0 || answer.decodeFailed || !answer.success
  }

  /** TaskSwitchTo: moves a connection from its old session to a new one
      served by another endpoint. */
  class TaskSwitchTo {
    var connectionId: u32
    var serviceEndpoint: string
    var oldSessionId: u32
    var newSessionId: u32

    /** A task with its four settings (setConnectionId, setServiceEndpoint,
        setOldSessionId, setNewSessionId). */
    constructor (connectionId: u32, serviceEndpoint: string, oldSessionId: u32, newSessionId: u32)
      ensures this.connectionId == connectionId && this.serviceEndpoint == serviceEndpoint
      ensures this.oldSessionId == oldSessionId && this.newSessionId == newSessionId
    {
      this.connectionId := connectionId;
      this.serviceEndpoint := serviceEndpoint;
      this.oldSessionId := oldSessionId;
      this.newSessionId := newSessionId;
    }

    /** What keeps the stores consistent across a switch: the new session
        exists and no connection shows it yet, it differs from the old one,
        and only the switched connection shows the old one. */
    predicate SwitchKeepsStoresValid(ctx: ApplicationContext)
      reads this, ctx
    {
      && connectionId != 0
      && newSessionId in ctx.sessions && newSessionId != oldSessionId
      && (forall c | c in ctx.connections :: ctx.connections[c] != newSessionId)
      && (forall c | c in ctx.connections && ctx.connections[c] == oldSessionId :: c == connectionId)
    }

    /** cleanUpOnError: stops and removes the new session when the store has
        it. */
    method CleanUpOnError(ctx: ApplicationContext)
      modifies ctx`sessions, ctx`stoppedModules
      ensures ctx.sessions == old(ctx.sessions) - {newSessionId}
      ensures ctx.stoppedModules == old(ctx.stoppedModules) + (if newSessionId in old(ctx.sessions) then [newSessionId] else [])
    {
      if newSessionId in ctx.sessions {
        ctx.StopAndRemoveSession(newSessionId);
      }
    }

    /** run: the switch call is queued. If the front end reports an RPC
        error, an undecodable answer or failure, the new session is cleaned
        up and the connection is left alone. Otherwise the old session (when
        set and present) is stopped and removed and the connection now shows
        the new session, created in the store if needed. */
    method Run(ctx: ApplicationContext, answer: SwitchAnswer)
      modifies ctx`sessions, ctx`connections, ctx`stoppedModules, ctx`outgoing
      ensures ctx.outgoing == old(ctx.outgoing) + [SwitchToCall(connectionId, serviceEndpoint)]
      ensures SwitchFailed(answer) ==>
        && ctx.connections == old(ctx.connections)
        && ctx.sessions == old(ctx.sessions) - {newSessionId}
        && ctx.stoppedModules == old(ctx.stoppedModules) + (if newSessionId in old(ctx.sessions) then [newSessionId] else [])
      ensures !SwitchFailed(answer) ==>
        && ctx.connections == old(ctx.connections)[connectionId := newSessionId]
        && ctx.sessions == (if oldSessionId != 0 then old(ctx.sessions) - {oldSessionId} else old(ctx.sessions))
        && ctx.stoppedModules == old(ctx.stoppedModules) +
             (if oldSessionId != 0 && oldSessionId in old(ctx.sessions) then [oldSessionId] else [])
      ensures old(ctx.Valid()) && old(SwitchKeepsStoresValid(ctx)) ==> ctx.Valid()
    {
      ctx.outgoing := ctx.outgoing + [SwitchToCall(connectionId, serviceEndpoint)];
      if answer.result != 0 {
        CleanUpOnError(ctx);
        return;
      }
      if answer.decodeFailed {
        CleanUpOnError(ctx);
        return;
      }
      if !answer.success {
        CleanUpOnError(ctx);
        return;
      }
      if oldSessionId != 0 {
        if oldSessionId in ctx.sessions {
          ctx.StopAndRemoveSession(oldSessionId);
        }
      }
      ctx.connections := ctx.connections[connectionId := newSessionId];
    }
  }
}
