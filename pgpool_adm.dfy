/** The three SQL-callable functions of pgpool_adm.c, `_pcp_node_info`,
    `_pcp_pool_status` and `_pcp_node_count`: resolve and check the
    connection parameters, run one PCP session, and shape its reply. */
module PgpoolAdm {
  import opened Wrappers
  import opened CInt
  import opened Params
  import opened Pcp

  // ---------------------------------------------------------------------
  // Result shaping

  /** The text `_pcp_node_info` reports for a backend status. */
  function StatusLabel(s: BackendStatus): (text: string)
    ensures StatusOfLabel(text) == Some(s)
  {
    match s
    case ConUnused => "Connection unused"
    case ConConnectWait => "Waiting for connection to start"
    case ConUp => "Connection in use"
    case ConDown => "Disconnected"
  }

  /** The status a label stands for, if any. */
  function StatusOfLabel(text: string): Option<BackendStatus> {
    if text == "Connection unused" then Some(ConUnused)
    else if text == "Waiting for connection to start" then Some(ConConnectWait)
    else if text == "Connection in use" then Some(ConUp)
    else if text == "Disconnected" then Some(ConDown)
    else None
  }

  /** The row `_pcp_node_info` returns, without the weight column. */
  datatype NodeInfoRow = NodeInfoRow(hostname: string, port: int, status: string)

  function NodeInfoRowOf(info: BackendInfo): (row: NodeInfoRow)
    ensures row.hostname == info.hostname && row.port == info.port
    ensures StatusOfLabel(row.status) == Some(info.status)
  {
    NodeInfoRow(info.hostname, info.port, StatusLabel(info.status))
  }

  /** The node-count reply as `_pcp_node_count` treats it: stored into an
      `int16`, where -1 means the request failed. */
  function NodeCountResult(count: int32): (r: Result<int16, Error>)
    ensures r.Failure? ==> r.error == NodeCountFailed
    ensures r.Success? ==> r.value != -1 && (r.value as int - count as int) % 0x1_0000 == 0
    ensures -0x8000 <= count < 0x8000 ==>
              (r.Success? <==> count != -1) && (r.Success? ==> r.value as int == count as int)
  {
    var n := ToInt16(count as int);
    if n == -1 then Failure(NodeCountFailed) else Success(n)
  }

  /** The rows a pool-status reply yields: the first `nrows`, or none when
      `nrows` is not positive. */
  function Rows(reply: StatusReply): (rows: seq<ConfigItem>)
    requires reply.nrows as int <= |reply.items|
    ensures |rows| == if reply.nrows > 0 then reply.nrows as int else 0
    ensures rows == reply.items[..|rows|]
  {
    if reply.nrows > 0 then reply.items[..reply.nrows] else []
  }

  /** The cross-call state of `_pcp_pool_status` as a set-returning function:
      the rows of the reply, `max_calls` and `call_cntr`. */
  class PoolStatusDrain {
    const status: array<ConfigItem>
    const maxCalls: nat
    var callCount: nat

    ghost predicate Valid()
      reads this
    {
      maxCalls <= status.Length && callCount <= maxCalls
    }

    /** The rows still to be returned, in order. */
    ghost function Remaining(): seq<ConfigItem>
      reads this, status
      requires Valid()
    {
      status[callCount..maxCalls]
    }

    /** The first-call setup after a successful request: `max_calls` is
        `nrows` when positive and stays 0 otherwise, so that the first call
        already reports that the set is done. */
    constructor (reply: StatusReply)
      requires reply.nrows as int <= |reply.items|
      ensures Valid() && fresh(status) && callCount == 0
      ensures status[..] == reply.items
      ensures maxCalls == if reply.nrows > 0 then reply.nrows as nat else 0
      ensures Remaining() == Rows(reply)
    {
      status := new ConfigItem[|reply.items|](i requires 0 <= i < |reply.items| => reply.items[i]);
      maxCalls := if reply.nrows > 0 then reply.nrows as nat else 0;
      callCount := 0;
    }

    /** One call of the set-returning function: the row at `call_cntr` while
        some are left, then "done" on every later call. */
    method Next() returns (row: Option<ConfigItem>)
      requires Valid()
      modifies this
      ensures Valid()
      ensures old(callCount) < maxCalls ==> row == Some(status[old(callCount)]) && callCount == old(callCount) + 1
      ensures old(callCount) >= maxCalls ==> row == None && callCount == old(callCount)
      ensures row.Some? <==> old(Remaining()) != []
      ensures row.Some? ==> row.value == old(Remaining())[0] && Remaining() == old(Remaining())[1..]
    {
      if callCount < maxCalls {
        row := Some(status[callCount]);
        callCount := callCount + 1;
      } else {
        row := None;
      }
    }
  }

  // ---------------------------------------------------------------------
  // The PCP session

  /** The calls a session makes on the client once the parameters are valid:
      set the timeout, connect, and only when connected, one request and
      the disconnect. */
  function SessionEvents(p: ConnParams, connectOk: bool, req: Request): seq<Event> {
    [Event.SetTimeout(p.timeout), Event.Connect(p.host, p.port, p.user, p.pass, connectOk)]
      + (if connectOk then [Issue(req), Event.Disconnect] else [])
  }

  /** A session run on a closed client leaves it closed, with the log still
      read as following the protocol. */
  lemma SessionFollowsProtocol(log: seq<Event>, p: ConnParams, connectOk: bool, req: Request)
    requires Run(Idle, log) == Idle
    ensures Run(Idle, log + SessionEvents(p, connectOk, req)) == Idle
  {
    var s := SessionEvents(p, connectOk, req);
    assert s[..1][..0] == [];
    assert Run(Idle, s[..1]) == TimeoutSet;
    assert s[..2][..1] == s[..1];
    if connectOk {
      assert s[..3][..2] == s[..2];
      assert Run(Idle, s[..3]) == Served;
      assert s[..4][..3] == s[..3] && s[..4] == s;
    } else {
      assert s[..2] == s;
    }
    RunAppend(Idle, log, s);
  }

  /** What one entry point does to the client: nothing when resolution or
      validation failed; otherwise it sets the timeout, connects once, and
      disconnects once exactly when the connection succeeded. */
  twostate predicate SessionRan(c: PcpClient, pre: Result<ConnParams, Error>, connectOk: bool, req: Request)
    reads c
  {
    if pre.Failure? then
      && c.log == old(c.log)
      && c.timeout == old(c.timeout)
      && c.connects == old(c.connects)
      && c.disconnects == old(c.disconnects)
    else
      && c.log == old(c.log) + SessionEvents(pre.value, connectOk, req)
      && c.timeout == pre.value.timeout
      && c.connects == old(c.connects) + 1
      && c.disconnects == old(c.disconnects) + (if connectOk then 1 else 0)
  }

  // ---------------------------------------------------------------------
  // Entry points

  /** What `_pcp_node_info` returns or raises. */
  function NodeInfoOutcome(pre: Result<ConnParams, Error>, connectOk: bool, info: Option<BackendInfo>): (r: Result<NodeInfoRow, Error>)
    ensures r.Success? <==> pre.Success? && connectOk && info.Some?
    ensures pre.Failure? ==> r == Failure(pre.error)
    ensures r == Failure(ConnectFailed) && pre.Success? <==> pre.Success? && !connectOk
    ensures r == Failure(NodeInfoFailed) && pre.Success? <==> pre.Success? && connectOk && info.None?
    ensures r.Success? ==> r.value.hostname == info.value.hostname && r.value.port == info.value.port &&
                           StatusOfLabel(r.value.status) == Some(info.value.status)
  {
    match pre
    case Failure(e) => Failure(e)
    case Success(_) =>
      if !connectOk then Failure(ConnectFailed)
      else match info
        case None => Failure(NodeInfoFailed)
        case Some(b) => Success(NodeInfoRowOf(b))
  }

  /** `_pcp_node_info(nodeID, host_or_srv [, timeout, port, user, pass])`. */
  method PcpNodeInfo(client: PcpClient, nargs: int, nodeId: int16, hostOrSrv: string, args: ExplicitArgs, catalog: Catalog)
    returns (r: Result<NodeInfoRow, Error>, ghost connectOk: bool, ghost info: Option<BackendInfo>)
    requires client.Closed()
    modifies client
    ensures client.Closed()
    ensures SessionRan(client, Prepare(nargs, NodeInfoArity, Some(nodeId), hostOrSrv, args, catalog), connectOk, NodeInfoRequest(nodeId, info))
    ensures r == NodeInfoOutcome(Prepare(nargs, NodeInfoArity, Some(nodeId), hostOrSrv, args, catalog), connectOk, info)
  {
    connectOk, info := false, None;
    var pre := PrepareParams(nargs, NodeInfoArity, Some(nodeId), hostOrSrv, args, catalog);
    if pre.Failure? {
      return Failure(pre.error), connectOk, info;
    }
    var p := pre.value;
    ghost var log0 := client.log;
    client.SetTimeout(p.timeout);
    var connected := client.Connect(p.host, p.port, p.user, p.pass);
    connectOk := connected;
    if !connected {
      SessionFollowsProtocol(log0, p, connectOk, NodeInfoRequest(nodeId, info));
      return Failure(ConnectFailed), connectOk, info;
    }
    var reply := client.NodeInfo(nodeId);
    info := reply;
    if reply.None? {
      client.Disconnect();
      assert client.log == log0 + SessionEvents(p, connectOk, NodeInfoRequest(nodeId, info));
      SessionFollowsProtocol(log0, p, connectOk, NodeInfoRequest(nodeId, info));
      return Failure(NodeInfoFailed), connectOk, info;
    }
    var row := NodeInfoRowOf(reply.value);
    client.Disconnect();
    assert client.log == log0 + SessionEvents(p, connectOk, NodeInfoRequest(nodeId, info));
    SessionFollowsProtocol(log0, p, connectOk, NodeInfoRequest(nodeId, info));
    r := Success(row);
  }

  /** `_pcp_pool_status(host_or_srv [, timeout, port, user, pass])`, first
      call: the session, then the drain the later calls read from. */
  method PcpPoolStatus(client: PcpClient, nargs: int, hostOrSrv: string, args: ExplicitArgs, catalog: Catalog)
    returns (r: Result<PoolStatusDrain, Error>, ghost connectOk: bool, ghost status: Option<StatusReply>)
    requires client.Closed()
    modifies client
    ensures client.Closed()
    ensures SessionRan(client, Prepare(nargs, ServerArity, None, hostOrSrv, args, catalog), connectOk, PoolStatusRequest(status))
    ensures var pre := Prepare(nargs, ServerArity, None, hostOrSrv, args, catalog);
            && (pre.Failure? ==> r == Failure(pre.error))
            && (pre.Success? && !connectOk ==> r == Failure(ConnectFailed))
            && (pre.Success? && connectOk && status.None? ==> r == Failure(PoolStatusFailed))
            && (pre.Success? && connectOk && status.Some? ==> r.Success?)
    ensures r.Success? ==>
              && status.Some? && status.value.nrows as int <= |status.value.items|
              && fresh(r.value) && fresh(r.value.status) && r.value.Valid()
              && r.value.callCount == 0 && r.value.Remaining() == Rows(status.value)
  {
    connectOk, status := false, None;
    var pre := PrepareParams(nargs, ServerArity, None, hostOrSrv, args, catalog);
    if pre.Failure? {
      return Failure(pre.error), connectOk, status;
    }
    var p := pre.value;
    ghost var log0 := client.log;
    client.SetTimeout(p.timeout);
    var connected := client.Connect(p.host, p.port, p.user, p.pass);
    connectOk := connected;
    if !connected {
      SessionFollowsProtocol(log0, p, connectOk, PoolStatusRequest(status));
      return Failure(ConnectFailed), connectOk, status;
    }
    var reply := client.PoolStatus();
    status := reply;
    if reply.None? {
      client.Disconnect();
      assert client.log == log0 + SessionEvents(p, connectOk, PoolStatusRequest(status));
      SessionFollowsProtocol(log0, p, connectOk, PoolStatusRequest(status));
      return Failure(PoolStatusFailed), connectOk, status;
    }
    client.Disconnect();
    assert client.log == log0 + SessionEvents(p, connectOk, PoolStatusRequest(status));
    SessionFollowsProtocol(log0, p, connectOk, PoolStatusRequest(status));
    var drain := new PoolStatusDrain(reply.value);
    r := Success(drain);
  }

  /** What `_pcp_node_count` returns or raises. */
  function NodeCountOutcome(pre: Result<ConnParams, Error>, connectOk: bool, count: int32): (r: Result<int16, Error>)
    ensures pre.Failure? ==> r == Failure(pre.error)
    ensures r == Failure(ConnectFailed) && pre.Success? <==> pre.Success? && !connectOk
    ensures r.Success? ==> pre.Success? && connectOk && r.value != -1 &&
                           (r.value as int - count as int) % 0x1_0000 == 0
    ensures pre.Success? && connectOk && -0x8000 <= count < 0x8000 ==>
              (r.Success? <==> count != -1) && (r.Success? ==> r.value as int == count as int)
  {
    match pre
    case Failure(e) => Failure(e)
    case Success(_) => if !connectOk then Failure(ConnectFailed) else NodeCountResult(count)
  }

  /** `_pcp_node_count(host_or_srv [, timeout, port, user, pass])`. */
  method PcpNodeCount(client: PcpClient, nargs: int, hostOrSrv: string, args: ExplicitArgs, catalog: Catalog)
    returns (r: Result<int16, Error>, ghost connectOk: bool, ghost count: int32)
    requires client.Closed()
    modifies client
    ensures client.Closed()
    ensures SessionRan(client, Prepare(nargs, ServerArity, None, hostOrSrv, args, catalog), connectOk, NodeCountRequest(count))
    ensures r == NodeCountOutcome(Prepare(nargs, ServerArity, None, hostOrSrv, args, catalog), connectOk, count)
    ensures r.Success? ==> r.value != -1
  {
    connectOk, count := false, 0;
    var pre := PrepareParams(nargs, ServerArity, None, hostOrSrv, args, catalog);
    if pre.Failure? {
      return Failure(pre.error), connectOk, count;
    }
    var p := pre.value;
    ghost var log0 := client.log;
    client.SetTimeout(p.timeout);
    var connected := client.Connect(p.host, p.port, p.user, p.pass);
    connectOk := connected;
    if !connected {
      SessionFollowsProtocol(log0, p, connectOk, NodeCountRequest(count));
      return Failure(ConnectFailed), connectOk, count;
    }
    var reply := client.NodeCount();
    count := reply;
    var nodeCount := ToInt16(reply as int);
    if nodeCount == -1 {
      client.Disconnect();
      assert client.log == log0 + SessionEvents(p, connectOk, NodeCountRequest(count));
      SessionFollowsProtocol(log0, p, connectOk, NodeCountRequest(count));
      return Failure(NodeCountFailed), connectOk, count;
    }
    client.Disconnect();
    assert client.log == log0 + SessionEvents(p, connectOk, NodeCountRequest(count));
    SessionFollowsProtocol(log0, p, connectOk, NodeCountRequest(count));
    r := Success(nodeCount);
  }
}
