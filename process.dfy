/** The connection controller (freerds/core/process.c): activation against
    the session manager, post-connect setup, the notifications the manager
    sends to a connection (endpoint switch, logoff, channel open), one pass
    of the connection thread's event loop, teardown, and frame
    acknowledgement.

    Outcomes decided elsewhere are parameters: the LogonUser result, whether
    a connector connects, whether a response write succeeds, the GUID
    UuidCreateSequential produces, and which event sources are signalled. */
module Process {
  import opened Base
  import opened Rds
  import PbRpc
  import Channels

  // ---------------------------------------------------------------------
  // Activation and post-connect
  // ---------------------------------------------------------------------

  /** The client settings activation reads. */
  datatype ClientSettings = ClientSettings(
    hasPassword: bool, remoteFxCodec: bool, frameAcknowledge: bool, surfaceFrameMarkerEnabled: bool)

  /** The codec mode: RemoteFX with frame acknowledgement and frame markers. */
  function CodecMode(s: ClientSettings): (m: bool)
    ensures m ==> s.remoteFxCodec && s.frameAcknowledge && s.surfaceFrameMarkerEnabled
    ensures !m ==> !s.remoteFxCodec || !s.frameAcknowledge || !s.surfaceFrameMarkerEnabled
  {
    s.remoteFxCodec && s.frameAcknowledge && s.surfaceFrameMarkerEnabled
  }

  /** freerds_peer_activate. With a connector already present this is a
      reactivation: TRUE and nothing else happens. Otherwise the codec mode
      is set and LogonUser is called; a nonzero result gives FALSE and no
      connector; a zero result creates the connector for the returned
      endpoint, and the result is whether it connects (a connector that
      fails to connect stays in place). */
  method Activate(c: Connection, settings: ClientSettings, logonError: int, endpoint: string, connectOk: bool)
    returns (ok: bool)
    requires c.Valid()
    modifies c`connector, c`backendLog, c`connectorsCreated, c`codecMode, c`autoLogonEnabled, c`managerCalls
    ensures c.Valid()
    ensures old(c.connector).Some? ==> ok && unchanged(c)
    ensures old(c.connector).None? ==>
      && c.codecMode == CodecMode(settings)
      && c.autoLogonEnabled == (old(c.autoLogonEnabled) || settings.hasPassword)
      && c.managerCalls == old(c.managerCalls) + [LogonUser(c.id)]
    ensures old(c.connector).None? && logonError != 0 ==>
      && !ok && c.connector == None
      && c.backendLog == old(c.backendLog) && c.connectorsCreated == old(c.connectorsCreated)
    ensures old(c.connector).None? && logonError == 0 ==>
      && ok == connectOk
      && c.connector == Some(Connector(old(c.connectorsCreated), endpoint))
      && c.backendLog == old(c.backendLog) + [ConnectorCreated(old(c.connectorsCreated))]
  {
    if c.connector.Some? {
      return true;
    }
    if settings.hasPassword {
      c.autoLogonEnabled := true;
    }
    c.codecMode := CodecMode(settings);
    c.managerCalls := c.managerCalls + [LogonUser(c.id)];
    if logonError != 0 {
      return false;
    }
    c.NewConnector(endpoint);
    if !connectOk {
      return false;
    }
    ok := true;
  }

  /** Desktop geometry as negotiated. */
  datatype DesktopSettings = DesktopSettings(width: u32, height: u32, colorDepth: u32)

  /** The resize test of freerds_peer_post_connect: the values it compares
      against the settings. */
  predicate ResizeRequested(requested: DesktopSettings, current: DesktopSettings) {
    requested != current
  }

  /** The values compared are copies of the settings themselves (the
      rounding that would change them is commented out), so the resize
      branch is never taken. */
  lemma PostConnectNeverResizes(settings: DesktopSettings)
    ensures !ResizeRequested(DesktopSettings(settings.width, settings.height, settings.colorDepth), settings)
  {
  }

  /** freerds_peer_post_connect: the requested geometry is copied from the
      settings and compared with them; a difference would resize the desktop
      and return TRUE at once, but the copies never differ, so channel
      post-connect and encoder creation always run, and the result is TRUE. */
  method PostConnect(c: Connection, settings: DesktopSettings) returns (ok: bool)
    modifies c`channelsPostConnected, c`encoderCreated
    ensures ok && c.channelsPostConnected && c.encoderCreated
  {
    var requested := DesktopSettings(settings.width, settings.height, settings.colorDepth);
    PostConnectNeverResizes(settings);
    if ResizeRequested(requested, settings) {
      ok := true;
      return;
    }
    c.channelsPostConnected := true;
    c.encoderCreated := true;
    ok := true;
  }

  /** freerds_update_frame_acknowledge: the acknowledged frame leaves the
      frame list when present; otherwise the list is unchanged. */
  method FrameAcknowledge(c: Connection, frameId: u32)
    modifies c`frameList
    ensures c.frameList == RemoveFirst(old(c.frameList), frameId)
    ensures frameId !in old(c.frameList) ==> c.frameList == old(c.frameList)
    ensures frameId in old(c.frameList) ==>
      multiset(c.frameList) == multiset(old(c.frameList)) - multiset{frameId}
  {
    if frameId in c.frameList {
      c.frameList := RemoveFirst(c.frameList, frameId);
    }
  }

  // ---------------------------------------------------------------------
  // Notifications from the session manager
  // ---------------------------------------------------------------------

  /** A notification posted by the RPC handlers: its id is the request's
      message type; the other fields are the request's. */
  datatype Notification = Notification(id: u32, callId: u32, endpoint: string, channelName: string)

  /** What the environment decides while a notification is processed. */
  datatype NotificationOutcome = NotificationOutcome(connectOk: bool, writeOk: bool, guid: string)

  /** The status freerds_client_process_switch_session puts in its response:
      0 when the new connector connected, 1 otherwise. */
  function SwitchStatus(connectOk: bool): (s: u32)
    ensures s == 0 <==> connectOk
  {
    if connectOk then 0 else 1
  }

  /** The response freerds_icp_SwitchServiceEndpointResponse writes, as
      written: it overwrites the status it is given with 0. */
  function SwitchResponseAsWritten(callId: u32, status: u32): ManagerResponse {
    SwitchServiceEndpointResponse(callId, 0)
  }

  /** As written, a failed switch is reported to the manager as a success. */
  lemma SwitchFailureReportedAsSuccess(callId: u32)
    ensures SwitchStatus(false) == 1
    ensures SwitchResponseAsWritten(callId, SwitchStatus(false)).status == 0
  {
  }

  /** The response as intended: the status computed by the switch. */
  function SwitchResponse(callId: u32, status: u32): (r: ManagerResponse)
    ensures r.SwitchServiceEndpointResponse? && r.callId == callId && r.status == status
  {
    SwitchServiceEndpointResponse(callId, status)
  }

  /** With the intended response the manager learns whether the switch
      succeeded. */
  lemma SwitchResponseReportsOutcome(callId: u32, connectOk: bool)
    ensures SwitchResponse(callId, SwitchStatus(connectOk)).status == 0 <==> connectOk
  {
  }

  /** freerds_client_process_switch_session: the old connector is freed
      before the new one is created for the requested endpoint, so the
      connection never holds two; the status computed is 0 iff the new
      connector connected, but the response as written carries 0 either
      way; the result is whether the response was sent. */
  method SwitchSession(c: Connection, n: Notification, o: NotificationOutcome) returns (ok: bool)
    requires c.Valid()
    modifies c`connector, c`backendLog, c`connectorsCreated, c`toManager
    ensures c.Valid()
    ensures c.connector == Some(Connector(old(c.connectorsCreated), n.endpoint))
    ensures c.backendLog == old(c.backendLog)
      + (if old(c.connector).Some? then [ConnectorFreed(old(c.connector).value.serial)] else [])
      + [ConnectorCreated(old(c.connectorsCreated))]
    ensures c.toManager == old(c.toManager)
      + (if o.writeOk then [SwitchServiceEndpointResponse(n.callId, 0)] else [])
    ensures ok == o.writeOk
  {
    c.FreeConnector();
    c.NewConnector(n.endpoint);
    var status := SwitchStatus(o.connectOk);
    if o.writeOk {
      c.toManager := c.toManager + [SwitchResponseAsWritten(n.callId, status)];
    }
    ok := o.writeOk;
  }

  /** freerds_client_process_logoff: the connector is freed if present, the
      client is closed, a status-0 response echoing the call id is sent,
      and the result is FALSE so that the loop stops. */
  method Logoff(c: Connection, n: Notification, o: NotificationOutcome) returns (cont: bool)
    requires c.Valid()
    modifies c`connector, c`backendLog, c`clientClosed, c`toManager
    ensures c.Valid() && !cont
    ensures c.connector == None && c.clientClosed
    ensures c.backendLog == old(c.backendLog)
      + (if old(c.connector).Some? then [ConnectorFreed(old(c.connector).value.serial)] else [])
    ensures c.toManager == old(c.toManager) + (if o.writeOk then [LogoffUserResponse(n.callId, 0)] else [])
  {
    c.FreeConnector();
    c.clientClosed := true;
    if o.writeOk {
      c.toManager := c.toManager + [LogoffUserResponse(n.callId, 0)];
    }
    cont := false;
  }

  /** freerds_client_process_channel_endpoint_open as written: a channel is
      created with a fresh GUID and the listener's port, and its GUID and
      port are sent back with status 0; the result is TRUE. The channel is
      put neither in the GUID table nor in the connection's channel list,
      so no accept can ever match it. */
  method ChannelEndpointOpenAsWritten(c: Connection, cs: Channels.ChannelServer, n: Notification,
                                      o: NotificationOutcome)
    returns (cont: bool, channel: Channel)
    modifies c`toManager
    ensures cont && fresh(channel)
    ensures channel.guidString == o.guid && channel.name == n.channelName && channel.port == cs.listenPort
    ensures !channel.connected
    ensures c.toManager == old(c.toManager) +
      (if o.writeOk then [ChannelEndpointOpenResponse(n.callId, 0, cs.listenPort, o.guid)] else [])
    ensures cs.table == old(cs.table) && c.channels == old(c.channels)
    ensures cs.AcceptTarget(o.guid) != Some(channel)
  {
    channel := new Channel(o.guid, n.channelName, cs.listenPort);
    if o.writeOk {
      c.toManager := c.toManager + [ChannelEndpointOpenResponse(n.callId, 0, channel.port, channel.guidString)];
    }
    cont := true;
  }

  /** The channel open as intended: the new channel is also registered
      under its GUID and added to the connection, so that the channel
      client's connection is accepted and its socket serviced. */
  method ChannelEndpointOpen(c: Connection, cs: Channels.ChannelServer, n: Notification, o: NotificationOutcome)
    returns (cont: bool, channel: Channel)
    modifies c`toManager, c`channels, cs`table
    ensures cont && fresh(channel)
    ensures channel.guidString == o.guid && channel.name == n.channelName && channel.port == cs.listenPort
    ensures c.toManager == old(c.toManager) +
      (if o.writeOk then [ChannelEndpointOpenResponse(n.callId, 0, cs.listenPort, o.guid)] else [])
    ensures cs.table == old(cs.table)[o.guid := channel]
    ensures c.channels == old(c.channels) + [channel]
    ensures cs.AcceptTarget(o.guid) == Some(channel)
  {
    channel := new Channel(o.guid, n.channelName, cs.listenPort);
    cs.Add(channel);
    Channels.AddChannel(c, channel);
    if o.writeOk {
      c.toManager := c.toManager + [ChannelEndpointOpenResponse(n.callId, 0, channel.port, channel.guidString)];
    }
    cont := true;
  }

  /** Whether freerds_client_process_notification lets the loop go on: the
      switch's result (whether its response was written), FALSE after
      logoff, TRUE after a channel open, FALSE for any other id. */
  predicate NotificationContinues(id: u32, writeOk: bool) {
    if id == PbRpc.SwitchServiceEndpointRequestId then writeOk
    else id == PbRpc.ChannelEndpointOpenRequestId
  }

  /** freerds_client_process_notification: dispatch on the notification's
      id to the handlers as written; any other id changes nothing. */
  method ProcessNotification(c: Connection, cs: Channels.ChannelServer, n: Notification, o: NotificationOutcome)
    returns (cont: bool)
    requires c.Valid()
    modifies c`connector, c`backendLog, c`connectorsCreated, c`toManager, c`clientClosed
    ensures c.Valid()
    ensures cont == NotificationContinues(n.id, o.writeOk)
    ensures c.channels == old(c.channels) && cs.table == old(cs.table)
    ensures n.id == PbRpc.SwitchServiceEndpointRequestId ==>
      && c.connector == Some(Connector(old(c.connectorsCreated), n.endpoint))
      && c.toManager == old(c.toManager) + (if o.writeOk then [SwitchServiceEndpointResponse(n.callId, 0)] else [])
    ensures n.id == PbRpc.LogoffUserRequestId ==>
      && c.connector == None && c.clientClosed
      && c.toManager == old(c.toManager) + (if o.writeOk then [LogoffUserResponse(n.callId, 0)] else [])
    ensures n.id == PbRpc.ChannelEndpointOpenRequestId ==>
      && c.connector == old(c.connector) && c.clientClosed == old(c.clientClosed)
      && c.toManager == old(c.toManager) +
           (if o.writeOk then [ChannelEndpointOpenResponse(n.callId, 0, cs.listenPort, o.guid)] else [])
      && !exists ch :: cs.AcceptTarget(o.guid) == Some(ch) && ch !in old(cs.table.Values)
    ensures n.id !in {PbRpc.SwitchServiceEndpointRequestId, PbRpc.LogoffUserRequestId,
                      PbRpc.ChannelEndpointOpenRequestId} ==>
      unchanged(c)
  {
    if n.id == PbRpc.SwitchServiceEndpointRequestId {
      cont := SwitchSession(c, n, o);
    } else if n.id == PbRpc.LogoffUserRequestId {
      cont := Logoff(c, n, o);
    } else if n.id == PbRpc.ChannelEndpointOpenRequestId {
      var channel;
      cont, channel := ChannelEndpointOpenAsWritten(c, cs, n, o);
    } else {
      cont := false;
    }
  }

  // ---------------------------------------------------------------------
  // The connection thread's event loop
  // ---------------------------------------------------------------------

  /** Which sources are signalled in one pass, and how servicing them goes. */
  datatype LoopEvents = LoopEvents(
    globalTerm: bool, localTerm: bool,
    clientSignalled: bool, clientCheckOk: bool,
    vcmSignalled: bool, vcmCheckOk: bool,
    activated: bool, connectorStatus: int,
    notification: Option<Notification>, outcome: NotificationOutcome)

  datatype ExitReason =
    | GlobalTerm | LocalTerm | ClientFailure | ChannelManagerFailure | ConnectorFailure | NotificationStop

  /** Why a pass ends the loop before it looks at notifications, checking
      the sources in the loop's order: global termination, local
      termination, the client, the channel manager, then the connector
      (only when activated and a connector exists). */
  function EarlyExit(ev: LoopEvents, hasConnector: bool): Option<ExitReason> {
    if ev.globalTerm then Some(GlobalTerm)
    else if ev.localTerm then Some(LocalTerm)
    else if ev.clientSignalled && !ev.clientCheckOk then Some(ClientFailure)
    else if ev.vcmSignalled && !ev.vcmCheckOk then Some(ChannelManagerFailure)
    else if ev.activated && hasConnector && ev.connectorStatus < 0 then Some(ConnectorFailure)
    else None
  }

  /** Termination signals take priority over every other source: when one
      is set the pass ends for that reason whatever else is signalled. */
  lemma TerminationFirst(ev: LoopEvents, hasConnector: bool)
    requires ev.globalTerm || ev.localTerm
    ensures EarlyExit(ev, hasConnector) == Some(if ev.globalTerm then GlobalTerm else LocalTerm)
  {
  }

  /** A failing source ends the pass before any notification is handled. */
  lemma FailureBeforeNotification(ev: LoopEvents, hasConnector: bool)
    requires (ev.clientSignalled && !ev.clientCheckOk) || (ev.vcmSignalled && !ev.vcmCheckOk)
             || (ev.activated && hasConnector && ev.connectorStatus < 0)
    ensures EarlyExit(ev, hasConnector).Some?
  {
  }

  /** One pass of the loop of freerds_connection_main_thread: an early exit
      changes nothing; otherwise a pending notification is processed and the
      loop stops exactly when the notification does not let it go on. */
  method LoopStep(c: Connection, cs: Channels.ChannelServer, ev: LoopEvents) returns (exit: Option<ExitReason>)
    requires c.Valid()
    modifies c`connector, c`backendLog, c`connectorsCreated, c`toManager, c`clientClosed
    ensures c.Valid()
    ensures c.channels == old(c.channels) && cs.table == old(cs.table)
    ensures EarlyExit(ev, old(c.connector).Some?).Some? ==>
      exit == EarlyExit(ev, old(c.connector).Some?) && unchanged(c) && unchanged(cs)
    ensures EarlyExit(ev, old(c.connector).Some?).None? && ev.notification.None? ==>
      exit == None && unchanged(c) && unchanged(cs)
    ensures exit.Some? ==> exit == EarlyExit(ev, old(c.connector).Some?) || exit == Some(NotificationStop)
    ensures EarlyExit(ev, old(c.connector).Some?).None? && ev.notification.Some? ==>
      exit == (if NotificationContinues(ev.notification.value.id, ev.outcome.writeOk) then None
               else Some(NotificationStop))
    ensures EarlyExit(ev, old(c.connector).Some?).None? && ev.notification.Some? &&
            ev.notification.value.id == PbRpc.LogoffUserRequestId ==>
      exit == Some(NotificationStop) && c.connector == None
  {
    exit := EarlyExit(ev, c.connector.Some?);
    if exit.Some? {
      return;
    }
    if ev.notification.Some? {
      var cont := ProcessNotification(c, cs, ev.notification.value, ev.outcome);
      if !cont {
        exit := Some(NotificationStop);
      }
    }
  }

  /** Teardown after the loop: with a connector, it is freed and
      DisconnectUserSession is called for the connection; then the client
      is disconnected and the connection leaves the server's registry. */
  method Teardown(c: Connection, server: Server)
    requires c.Valid()
    modifies c`connector, c`backendLog, c`managerCalls, c`clientDisconnected, server
    ensures c.Valid() && c.connector == None && c.clientDisconnected
    ensures c.managerCalls == old(c.managerCalls) +
      (if old(c.connector).Some? then [DisconnectUserSession(c.id)] else [])
    ensures c.backendLog == old(c.backendLog)
      + (if old(c.connector).Some? then [ConnectorFreed(old(c.connector).value.serial)] else [])
    ensures server.connections == old(server.connections) - {c.id}
  {
    if c.connector.Some? {
      c.FreeConnector();
      c.managerCalls := c.managerCalls + [DisconnectUserSession(c.id)];
    }
    c.clientDisconnected := true;
    server.RemoveConnection(c.id);
  }

  /** freerds_connection_main_thread over the passes in `rounds`: the
      connection is registered, passes run until one exits, and then the
      connection is torn down. When no pass exits, the thread is still in
      its loop and the result is None. */
  method MainThread(c: Connection, cs: Channels.ChannelServer, server: Server, rounds: seq<LoopEvents>)
    returns (exit: Option<ExitReason>)
    requires c.Valid()
    modifies c, server
    ensures c.Valid() && cs.table == old(cs.table)
    ensures exit.Some? ==> c.connector == None && c.clientDisconnected && c.id !in server.connections
    ensures exit.None? ==> server.connections == old(server.connections)[c.id := c]
  {
    server.AddConnection(c);
    var i := 0;
    exit := None;
    while i < |rounds|
      invariant 0 <= i <= |rounds| && c.Valid()
      invariant server.connections == old(server.connections)[c.id := c]
      decreases |rounds| - i
    {
      exit := LoopStep(c, cs, rounds[i]);
      if exit.Some? {
        break;
      }
      i := i + 1;
    }
    if exit.Some? {
      Teardown(c, server);
    }
  }
}
