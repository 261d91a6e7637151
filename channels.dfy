/** Channel provisioning (freerds/core/channels.c): the loopback listener's
    port search, the GUID -> channel table with its accept rule, and the two
    byte-forwarding directions between a channel socket and the RDP virtual
    channel.

    Socket calls are parameters: whether `socket()` and `accept()` produce a
    socket, which ports `bind()` accepts, how many bytes each `send()` takes
    and what each `recv()` returns. */
module Channels {
  import opened Base
  import opened Rds

  // ---------------------------------------------------------------------
  // Listener port
  // ---------------------------------------------------------------------

  datatype PortRange = PortRange(beg: int, end: int)

  /** freerds_detect_ephemeral_port_range: the IANA dynamic range, or the
      Linux kernel's default range when built for Linux. */
  function EphemeralPortRange(isLinux: bool): (r: PortRange)
    ensures 0 < r.beg <= r.end <= 65535
    ensures isLinux ==> r == PortRange(32768, 61000)
    ensures !isLinux ==> r == PortRange(49152, 65535)
  {
    if isLinux then PortRange(32768, 61000) else PortRange(49152, 65535)
  }

  /** freerds_bind_local_ephemeral_port: with a socket, the ports of the
      range are tried in increasing order and the first that binds is
      returned; when none binds, the socket is closed and the result is -1.
      Without a socket the result is -1 as well. The out-socket is 0 in both
      failure cases. */
  method BindLocalEphemeralPort(isLinux: bool, created: Option<nat>, binds: int -> bool)
    returns (port: int, socket: nat)
    ensures var range := EphemeralPortRange(isLinux);
      && (created.None? ==> port == -1 && socket == 0)
      && (created.Some? && port != -1 ==>
            && range.beg <= port <= range.end && binds(port)
            && (forall p | range.beg <= p < port :: !binds(p))
            && socket == created.value)
      && (created.Some? && port == -1 ==>
            && socket == 0
            && (forall p | range.beg <= p <= range.end :: !binds(p)))
  {
    socket := 0;
    var range := EphemeralPortRange(isLinux);
    if created.None? {
      return -1, 0;
    }
    socket := created.value;
    port := range.beg;
    var bound := false;
    while port <= range.end
      invariant range.beg <= port <= range.end + 1
      invariant forall p | range.beg <= p < port :: !binds(p)
      decreases range.end - port
    {
      if binds(port) {
        bound := true;
        break;
      }
      port := port + 1;
    }
    if !bound {
      // closesocket(s)
      socket := 0;
      port := -1;
    }
  }

  // ---------------------------------------------------------------------
  // The GUID -> channel table
  // ---------------------------------------------------------------------

  /** `rdsChannelServer`. Sockets closed by the server are recorded in
      `closedSockets`. */
  class ChannelServer {
    var listenPort: int
    var table: map<string, Channel>
    var closedSockets: seq<nat>

    constructor ()
      ensures listenPort == 0 && table == map[] && closedSockets == []
    {
      listenPort := 0;
      table := map[];
      closedSockets := [];
    }

    /** The channel a connection presenting `guid` is matched with: a
        registered channel that is not connected yet. */
    function AcceptTarget(guid: string): Option<Channel>
      reads this, table.Values
    {
      if guid in table && !table[guid].connected then Some(table[guid]) else None
    }

    /** freerds_channel_server_add: the channel is found under its GUID. */
    method Add(channel: Channel)
      modifies this`table
      ensures table == old(table)[channel.guidString := channel]
      ensures channel.guidString in table && table[channel.guidString] == channel
    {
      table := table[channel.guidString := channel];
    }

    /** freerds_channel_server_remove: the channel's GUID is no longer found. */
    method Remove(channel: Channel)
      modifies this`table
      ensures table == old(table) - {channel.guidString}
      ensures channel.guidString !in table
    {
      table := table - {channel.guidString};
    }

    /** freerds_channel_server_accept. `accepted` is the socket `accept()`
        returned (None for INVALID_SOCKET) and `received` the characters the
        first `recv()` of at most 36 delivered. A failed accept returns -1;
        a short GUID, an unknown GUID or an already connected channel closes
        the socket and returns -1 with every channel untouched; otherwise the
        matched channel takes the socket, becomes connected, its ready event
        is signalled, and the result is 1. */
    method Accept(accepted: Option<nat>, received: string) returns (r: int)
      requires |received| <= 36
      modifies this`closedSockets, table.Values
      ensures table == old(table) && listenPort == old(listenPort)
      ensures r == 1 <==> accepted.Some? && |received| == 36 && old(AcceptTarget(received)).Some?
      ensures r != 1 ==> r == -1 && forall ch | ch in table.Values :: unchanged(ch)
      ensures r != 1 ==> closedSockets == old(closedSockets) + (if accepted.Some? then [accepted.value] else [])
      ensures r == 1 ==>
        && closedSockets == old(closedSockets)
        && table[received].socket == accepted.value
        && table[received].connected && table[received].readySignalled
        && table[received].rdpChannel == old(table[received].rdpChannel)
        && forall ch | ch in table.Values && ch != table[received] :: unchanged(ch)
    {
      if accepted.None? {
        return -1;
      }
      var socket := accepted.value;
      if |received| != 36 {
        closedSockets := closedSockets + [socket];
        return -1;
      }
      var target := AcceptTarget(received);
      if target.None? {
        closedSockets := closedSockets + [socket];
        return -1;
      }
      var channel := target.value;
      channel.socket := socket;
      channel.connected := true;
      channel.readySignalled := true;
      r := 1;
    }
  }

  /** freerds_client_add_channel. */
  method AddChannel(c: Connection, channel: Channel)
    modifies c`channels
    ensures c.channels == old(c.channels) + [channel]
  {
    c.channels := c.channels + [channel];
  }

  /** freerds_client_remove_channel. */
  method RemoveChannel(c: Connection, channel: Channel)
    modifies c`channels
    ensures c.channels == RemoveFirst(old(c.channels), channel)
  {
    c.channels := RemoveFirst(c.channels, channel);
  }

  // ---------------------------------------------------------------------
  // Virtual channel -> socket: the partial-send loop
  // ---------------------------------------------------------------------

  /** A model of `send()`: at offset `o` of the buffer it takes sendAt(o)
      bytes (at most the remainder), or returns a value below 1 on failure. */
  predicate SendsWithinRemainder(sendAt: nat -> int, length: nat) {
    forall o: nat | o < length :: sendAt(o) <= length - o
  }

  /** How far the send loop gets: sends from `offset` until the buffer is
      exhausted or a send returns less than 1. */
  function BytesSent(sendAt: nat -> int, length: nat, offset: nat): (n: nat)
    requires offset <= length && SendsWithinRemainder(sendAt, length)
    ensures offset <= n <= length
    ensures n < length ==> sendAt(n) < 1
    decreases length - offset
  {
    if offset == length || sendAt(offset) < 1 then offset
    else BytesSent(sendAt, length, offset + sendAt(offset))
  }

  /** freerdp_client_virtual_channel_read: data the client wrote to the
      virtual channel goes to the channel's socket. A null handle or a
      handle without a channel gives -1. Otherwise the buffer is sent chunk
      by chunk from the start; the result is the whole length when every
      byte went out, and the failing send's result (below 1) when one
      failed. `wire` is what the socket received. */
  method VirtualChannelRead(channelData: map<nat, Channel>, hChannel: nat, buffer: seq<byte>,
                            sendAt: nat -> int)
    returns (r: int, wire: seq<byte>)
    requires |buffer| < U32_LIMIT && SendsWithinRemainder(sendAt, |buffer|)
    ensures hChannel == 0 || hChannel !in channelData ==> r == -1 && wire == []
    ensures hChannel != 0 && hChannel in channelData ==>
      var n := BytesSent(sendAt, |buffer|, 0);
      && wire == buffer[..n]
      && (n == |buffer| ==> r == |buffer|)
      && (n < |buffer| ==> r == sendAt(n) && r < 1)
  {
    wire := [];
    if hChannel == 0 || hChannel !in channelData {
      return -1, [];
    }
    var length := |buffer|;
    var status := 1;
    var offset := 0;
    while offset < length
      invariant 0 <= offset <= length
      invariant BytesSent(sendAt, length, offset) == BytesSent(sendAt, length, 0)
      invariant wire == buffer[..offset]
      decreases length - offset
    {
      status := sendAt(offset);
      if status < 1 {
        break;
      }
      wire := wire + buffer[offset..offset + status];
      offset := offset + status;
    }
    if offset == length {
      status := offset;
    }
    r := status;
  }

  // ---------------------------------------------------------------------
  // Socket -> virtual channel: length-prefixed messages
  // ---------------------------------------------------------------------

  /** The native (little-endian) `UINT32` length prefix. */
  function LE32(b: seq<byte>): u32
    requires |b| == 4
  {
    (b[0] as int) + 0x100 * (b[1] as int) + 0x1_0000 * (b[2] as int) + 0x100_0000 * (b[3] as int)
  }

  function EncodeLE32(n: u32): (b: seq<byte>)
    ensures |b| == 4
  {
    [n % 0x100, (n / 0x100) % 0x100, (n / 0x1_0000) % 0x100, n / 0x100_0000]
  }

  /** Encoding then decoding a length gives it back. */
  lemma DecodeEncodeLE32(n: u32)
    ensures LE32(EncodeLE32(n)) == n
  {
  }

  /** Decoding then encoding four bytes gives them back: the prefix has one
      encoding per length. */
  lemma EncodeDecodeLE32(b: seq<byte>)
    requires |b| == 4
    ensures EncodeLE32(LE32(b)) == b
  {
    DivMod(0x100, b[0], (b[1] as int) + 0x100 * (b[2] as int) + 0x1_0000 * (b[3] as int));
    DivMod(0x100, b[1], (b[2] as int) + 0x100 * (b[3] as int));
    DivMod(0x1_0000, (b[0] as int) + 0x100 * (b[1] as int), (b[2] as int) + 0x100 * (b[3] as int));
    DivMod(0x100, b[2], b[3]);
    DivMod(0x100_0000, (b[0] as int) + 0x100 * (b[1] as int) + 0x1_0000 * (b[2] as int), b[3]);
  }

  /** Division by the prefix's byte weights has one answer. */
  lemma DivMod(d: int, r: int, q: int)
    requires d == 0x100 || d == 0x1_0000 || d == 0x100_0000
    requires 0 <= r < d
    ensures (r + d * q) / d == q && (r + d * q) % d == r
  {
    if d == 0x100 {
      assert (r + 0x100 * q) / 0x100 == q;
    } else if d == 0x1_0000 {
      assert (r + 0x1_0000 * q) / 0x1_0000 == q;
    } else {
      assert (r + 0x100_0000 * q) / 0x100_0000 == q;
    }
  }

  /** The outcomes of the socket calls of one freerds_channel_check_socket:
      the bytes the 4-byte `recv()` delivered, whether `malloc()` succeeded,
      the second `recv()`'s result and the contents of the allocated buffer
      after it (the bytes received, then whatever the buffer held). */
  datatype SocketRead = SocketRead(prefix: seq<byte>, allocOk: bool, bodyStatus: int, body: seq<byte>)

  /** What the socket calls can give: a prefix of at most four bytes; a
      buffer of the announced length; a second result that fits the C `int`
      it is stored in and is at most what was asked for, or -1 on error. */
  predicate ReadFits(rd: SocketRead) {
    && |rd.prefix| <= 4
    && -1 <= rd.bodyStatus < 0x8000_0000
    && (|rd.prefix| == 4 && rd.allocOk ==> |rd.body| == LE32(rd.prefix) && rd.bodyStatus <= LE32(rd.prefix))
  }

  /** The completeness test of the body read as written: `status != length`
      compares an `int` with a `UINT32`, so C converts the status to
      unsigned and an error result of -1 matches a prefix of 0xFFFFFFFF. */
  predicate BodyCompleteAsWritten(length: u32, bodyStatus: int) {
    ToU32(bodyStatus) == length
  }

  /** The completeness test as intended: the read returned every byte. */
  predicate BodyComplete(length: u32, bodyStatus: int) {
    bodyStatus == length
  }

  /** The buffer one check hands to the virtual channel, if any, as written:
      whenever the as-written test passes, `VirtualChannelWrite` gets the
      whole buffer, `ToU32(status)` bytes long. */
  function Forwarded(rd: SocketRead): (f: Option<seq<byte>>)
    requires ReadFits(rd)
    ensures f.Some? ==> |rd.prefix| == 4 && rd.allocOk && f.value == rd.body
    ensures f.Some? ==> |f.value| == ToU32(rd.bodyStatus) == LE32(rd.prefix)
  {
    if |rd.prefix| == 4 && rd.allocOk && BodyCompleteAsWritten(LE32(rd.prefix), rd.bodyStatus) then Some(rd.body)
    else None
  }

  /** The value freerds_channel_check_socket returns for `rd`, as written:
      the body read's own status once the buffer was written, else -1. */
  function CheckSocketStatus(rd: SocketRead): (r: int)
    requires ReadFits(rd)
    ensures r == -1 || Forwarded(rd).Some?
  {
    if Forwarded(rd).Some? then rd.bodyStatus else -1
  }

  /** A failed body read behind a prefix of 0xFFFFFFFF passes the as-written
      test: the whole uninitialised 4 GiB buffer is written to the virtual
      channel, and the check then returns -1. */
  lemma FailedReadForwardedAsWritten(rd: SocketRead)
    requires ReadFits(rd) && rd.prefix == [0xFF, 0xFF, 0xFF, 0xFF] && rd.allocOk && rd.bodyStatus == -1
    ensures Forwarded(rd) == Some(rd.body) && |rd.body| == 0xFFFF_FFFF
    ensures CheckSocketStatus(rd) == -1
  {
    assert LE32(rd.prefix) == 0xFFFF_FFFF;
  }

  /** The buffer forwarded by the intended test. */
  function ForwardedIntended(rd: SocketRead): (f: Option<seq<byte>>)
    requires ReadFits(rd)
  {
    if |rd.prefix| == 4 && rd.allocOk && BodyComplete(LE32(rd.prefix), rd.bodyStatus) then Some(rd.body)
    else None
  }

  /** The status the intended test returns. */
  function CheckSocketStatusIntended(rd: SocketRead): int
    requires ReadFits(rd)
  {
    match ForwardedIntended(rd)
    case Some(data) => |data|
    case None => -1
  }

  /** The intended test never forwards a failed read, and otherwise agrees
      with the test as written: a forwarded buffer is exactly the bytes
      received and its length is the status returned. */
  lemma BodyCompleteRejectsFailure(rd: SocketRead)
    requires ReadFits(rd)
    ensures rd.bodyStatus < 0 ==> ForwardedIntended(rd).None? && CheckSocketStatusIntended(rd) == -1
    ensures ForwardedIntended(rd).Some? <==> Forwarded(rd).Some? && rd.bodyStatus >= 0
    ensures ForwardedIntended(rd).Some? ==>
      && ForwardedIntended(rd) == Forwarded(rd)
      && CheckSocketStatusIntended(rd) == CheckSocketStatus(rd) == |rd.body| == rd.bodyStatus
  {
  }

  /** A message framed by the channel client (its length in four bytes,
      then the bytes) arrives at the virtual channel unchanged. */
  lemma ForwardFramedMessage(m: seq<byte>)
    requires |m| < 0x8000_0000
    ensures var rd := SocketRead(EncodeLE32(|m|), true, |m|, m);
      ReadFits(rd) && Forwarded(rd) == Some(m) && CheckSocketStatus(rd) == |m|
  {
    DecodeEncodeLE32(|m|);
  }

  /** Conversely, what is forwarded is exactly the body announced by a
      complete prefix. */
  lemma ForwardedIsFramed(rd: SocketRead)
    requires ReadFits(rd) && Forwarded(rd).Some?
    ensures rd.prefix == EncodeLE32(|rd.body|) && Forwarded(rd).value == rd.body
  {
    EncodeDecodeLE32(rd.prefix);
  }

  /** freerds_channel_check_socket as written: a short prefix, a failed
      allocation or a body read that fails the as-written test gives -1 and
      forwards nothing; otherwise the buffer goes to the channel's virtual
      channel and the body read's status is returned (its length, or -1 for
      a failed read behind a prefix of 0xFFFFFFFF). */
  method CheckSocket(c: Connection, channel: Channel, rd: SocketRead) returns (status: int)
    requires ReadFits(rd)
    modifies c`vcWrites
    ensures status == CheckSocketStatus(rd)
    ensures c.vcWrites == old(c.vcWrites) +
      (if Forwarded(rd).Some? then [VcWrite(channel.rdpChannel, Forwarded(rd).value)] else [])
  {
    if |rd.prefix| != 4 {
      return -1;
    }
    var length := LE32(rd.prefix);
    if !rd.allocOk {
      return -1;
    }
    if !BodyCompleteAsWritten(length, rd.bodyStatus) {
      return -1;
    }
    c.vcWrites := c.vcWrites + [VcWrite(channel.rdpChannel, rd.body)];
    status := rd.bodyStatus;
  }

  // ---------------------------------------------------------------------
  // Servicing the signalled channels of a connection
  // ---------------------------------------------------------------------

  /** Whether checking channel `i` fails (it is signalled and its check
      returns less than 1). */
  predicate FailsAt(signalled: seq<bool>, recvs: seq<SocketRead>, i: nat)
    requires i < |signalled| == |recvs| && forall k | 0 <= k < |recvs| :: ReadFits(recvs[k])
  {
    signalled[i] && CheckSocketStatus(recvs[i]) < 1
  }

  /** The first failing channel from index `i` on, if any. */
  function FirstFailure(signalled: seq<bool>, recvs: seq<SocketRead>, i: nat): (k: Option<nat>)
    requires i <= |signalled| == |recvs| && forall j | 0 <= j < |recvs| :: ReadFits(recvs[j])
    ensures k.Some? ==> i <= k.value < |recvs| && FailsAt(signalled, recvs, k.value)
    ensures k.Some? ==> forall j | i <= j < k.value :: !FailsAt(signalled, recvs, j)
    ensures k.None? ==> forall j | i <= j < |recvs| :: !FailsAt(signalled, recvs, j)
    decreases |recvs| - i
  {
    if i == |recvs| then None
    else if FailsAt(signalled, recvs, i) then Some(i)
    else FirstFailure(signalled, recvs, i + 1)
  }

  /** The virtual-channel writes made while checking channels 0 .. n-1. */
  function WritesUpTo(rdp: seq<nat>, signalled: seq<bool>, recvs: seq<SocketRead>, n: nat): seq<VcWrite>
    requires n <= |rdp| == |signalled| == |recvs| && forall k | 0 <= k < |recvs| :: ReadFits(recvs[k])
  {
    if n == 0 then []
    else
      var last := if signalled[n - 1] && Forwarded(recvs[n - 1]).Some?
        then [VcWrite(rdp[n - 1], Forwarded(recvs[n - 1]).value)] else [];
      WritesUpTo(rdp, signalled, recvs, n - 1) + last
  }

  function RdpChannels(chs: seq<Channel>): (rdp: seq<nat>)
    reads set ch | ch in chs
    ensures |rdp| == |chs| && forall i | 0 <= i < |chs| :: rdp[i] == chs[i].rdpChannel
  {
    seq(|chs|, i reads set ch | ch in chs requires 0 <= i < |chs| => chs[i].rdpChannel)
  }

  /** freerds_client_check_channel_event_handles: the channels are checked
      in list order, signalled ones only, up to the first failure; only that
      channel leaves the list. The result is always 1. */
  method CheckChannelEventHandles(c: Connection, signalled: seq<bool>, recvs: seq<SocketRead>)
    returns (r: int)
    requires |signalled| == |recvs| == |c.channels|
    requires forall k | 0 <= k < |recvs| :: ReadFits(recvs[k])
    modifies c`channels, c`vcWrites
    ensures r == 1
    ensures match FirstFailure(signalled, recvs, 0)
      case None =>
        && c.channels == old(c.channels)
        && c.vcWrites == old(c.vcWrites) + WritesUpTo(old(RdpChannels(c.channels)), signalled, recvs, |recvs|)
      case Some(k) =>
        && c.channels == RemoveFirst(old(c.channels), old(c.channels)[k])
        && c.vcWrites == old(c.vcWrites) + WritesUpTo(old(RdpChannels(c.channels)), signalled, recvs, k + 1)
  {
    ghost var rdp := RdpChannels(c.channels);
    ghost var w0 := c.vcWrites;
    var channels := c.channels;
    var index := 0;
    var status := 1;
    while index < |channels|
      invariant 0 <= index <= |channels| && c.channels == channels && status >= 1
      invariant FirstFailure(signalled, recvs, 0) == FirstFailure(signalled, recvs, index)
      invariant c.vcWrites == w0 + WritesUpTo(rdp, signalled, recvs, index)
      decreases |channels| - index
    {
      var channel := channels[index];
      if signalled[index] {
        status := CheckSocket(c, channel, recvs[index]);
        if status < 1 {
          break;
        }
      }
      index := index + 1;
    }
    if status < 1 {
      assert FailsAt(signalled, recvs, index);
      RemoveChannel(c, channels[index]);
      // freerds_channel_free(channel)
    }
    r := 1;
  }
}
