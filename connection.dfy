/** The front end's per-client state (`rdsConnection`), its side channels
    (`rdsChannel`) and the process-wide connection registry (`rdsServer`),
    shared by the channel server and the connection controller. */
module Rds {
  import opened Base

  /** `rdsChannel`: a dynamic virtual channel bridged to a local TCP socket.
      Socket value 0 stands for "no socket". */
  class Channel {
    const guidString: string
    const name: string
    const port: int
    var rdpChannel: nat
    var socket: nat
    var connected: bool
    var readySignalled: bool

    /** freerds_channel_new: a fresh, unconnected channel with its GUID and
        the listener's port; the ready event starts unsignalled. */
    constructor (guidString: string, name: string, port: int)
      ensures this.guidString == guidString && this.name == name && this.port == port
      ensures rdpChannel == 0 && socket == 0 && !connected && !readySignalled
    {
      this.guidString := guidString;
      this.name := name;
      this.port := port;
      rdpChannel := 0;
      socket := 0;
      connected := false;
      readySignalled := false;
    }
  }

  /** A backend connector (`rdsBackendConnector`): the serial distinguishes
      the connectors created over a connection's life. */
  datatype Connector = Connector(serial: nat, endpoint: string)

  /** Creations and releases of backend connectors, in order. */
  datatype BackendEvent = ConnectorCreated(serial: nat) | ConnectorFreed(serial: nat)

  /** One `client->VirtualChannelWrite(client, rdpChannel, data, length)`. */
  datatype VcWrite = VcWrite(rdpChannel: nat, data: seq<byte>)

  /** Blocking calls a connection thread makes to the session manager. */
  datatype ManagerCall = LogonUser(connectionId: u32) | DisconnectUserSession(connectionId: u32)

  /** Responses a connection thread writes straight to the manager pipe. */
  datatype ManagerResponse =
    | SwitchServiceEndpointResponse(callId: u32, status: u32)
    | LogoffUserResponse(callId: u32, status: u32)
    | ChannelEndpointOpenResponse(callId: u32, status: u32, channelPort: int, channelGuid: string)

  /** Number of connectors alive after the events of `log`. */
  function LiveCount(log: seq<BackendEvent>): int
    decreases |log|
  {
    if log == [] then 0
    else LiveCount(log[..|log| - 1]) + (if log[|log| - 1].ConnectorCreated? then 1 else -1)
  }

  /** At no point of `log` are two connectors alive at once. */
  predicate NeverTwoLive(log: seq<BackendEvent>)
    decreases |log|
  {
    log == [] || (NeverTwoLive(log[..|log| - 1]) && LiveCount(log) <= 1)
  }

  /** Extending a history: the count moves by one, and the history stays
      within one live connector exactly when the new count does. */
  lemma NeverTwoLiveAppend(log: seq<BackendEvent>, e: BackendEvent)
    ensures LiveCount(log + [e]) == LiveCount(log) + (if e.ConnectorCreated? then 1 else -1)
    ensures NeverTwoLive(log + [e]) <==> NeverTwoLive(log) && LiveCount(log + [e]) <= 1
  {
    assert (log + [e])[..|log|] == log;
  }

  /** `rdsConnection`, restricted to the state the controller and the
      channel code act on. */
  class Connection {
    const id: u32
    var connector: Option<Connector>
    var connectorsCreated: nat
    var backendLog: seq<BackendEvent>
    var autoLogonEnabled: bool
    var codecMode: bool
    var channels: seq<Channel>
    var vcWrites: seq<VcWrite>
    /** FrameList: ids of surface frames awaiting acknowledgement. */
    var frameList: seq<u32>
    var managerCalls: seq<ManagerCall>
    var toManager: seq<ManagerResponse>
    var channelsPostConnected: bool
    var encoderCreated: bool
    var clientClosed: bool
    var clientDisconnected: bool

    /** The connector field and the history of connectors agree: the
        connection holds exactly the live connector, and never held two. */
    predicate Valid()
      reads this
    {
      && LiveCount(backendLog) == (if connector.Some? then 1 else 0)
      && NeverTwoLive(backendLog)
    }

    constructor (id: u32)
      ensures this.id == id && Valid()
      ensures connector == None && connectorsCreated == 0 && backendLog == []
      ensures !autoLogonEnabled && !codecMode
      ensures channels == [] && vcWrites == [] && frameList == []
      ensures managerCalls == [] && toManager == []
      ensures !channelsPostConnected && !encoderCreated && !clientClosed && !clientDisconnected
    {
      this.id := id;
      connector := None;
      connectorsCreated := 0;
      backendLog := [];
      autoLogonEnabled := false;
      codecMode := false;
      channels := [];
      vcWrites := [];
      frameList := [];
      managerCalls := [];
      toManager := [];
      channelsPostConnected := false;
      encoderCreated := false;
      clientClosed := false;
      clientDisconnected := false;
    }

    /** freerds_connector_free on the current connector (a no-op without one)
        followed by clearing the field. */
    method FreeConnector()
      requires Valid()
      modifies this`connector, this`backendLog
      ensures Valid() && connector == None
      ensures backendLog == old(backendLog) +
        (if old(connector).Some? then [ConnectorFreed(old(connector).value.serial)] else [])
    {
      if connector.Some? {
        NeverTwoLiveAppend(backendLog, ConnectorFreed(connector.value.serial));
        backendLog := backendLog + [ConnectorFreed(connector.value.serial)];
        connector := None;
      }
    }

    /** freerds_connector_new plus setting its endpoint; callable only once
        the previous connector is gone. */
    method NewConnector(endpoint: string)
      requires Valid() && connector == None
      modifies this`connector, this`backendLog, this`connectorsCreated
      ensures Valid()
      ensures connector == Some(Connector(old(connectorsCreated), endpoint))
      ensures connectorsCreated == old(connectorsCreated) + 1
      ensures backendLog == old(backendLog) + [ConnectorCreated(old(connectorsCreated))]
    {
      NeverTwoLiveAppend(backendLog, ConnectorCreated(connectorsCreated));
      backendLog := backendLog + [ConnectorCreated(connectorsCreated)];
      connector := Some(Connector(connectorsCreated, endpoint));
      connectorsCreated := connectorsCreated + 1;
    }
  }

  /** `rdsServer`: the registry of live connections by id. */
  class Server {
    var connections: map<u32, Connection>

    constructor ()
      ensures connections == map[]
    {
      connections := map[];
    }

    /** freerds_server_add_connection. */
    method AddConnection(c: Connection)
      modifies this
      ensures connections == old(connections)[c.id := c]
    {
      connections := connections[c.id := c];
    }

    /** freerds_server_remove_connection. */
    method RemoveConnection(id: u32)
      modifies this
      ensures connections == old(connections) - {id}
    {
      connections := connections - {id};
    }
  }
}
