/** The PCP client library as the extension sees it: a process-wide session
    that `pcp_connect` opens and `pcp_disconnect` closes, a process-wide
    timeout, and three requests whose replies come from the pgpool server.
    The replies are chosen nondeterministically: callers know only what the
    contracts below say. The client also keeps a ghost log of the calls made
    on it, and `Run` reads such a log against the order in which the
    extension promises to use the library. */
module Pcp {
  import opened Wrappers
  import opened CInt

  /** The backend connection status codes of pgpool. */
  datatype BackendStatus = ConUnused | ConConnectWait | ConUp | ConDown

  /** A node-info reply; the backend weight is not modelled. */
  datatype BackendInfo = BackendInfo(hostname: string, port: int, status: BackendStatus)

  /** One row of the pool-status reply: a setting, its value, its description. */
  datatype ConfigItem = ConfigItem(name: string, value: string, desc: string)

  /** A pool-status reply: the array of rows and the row count written to `nrows`. */
  datatype StatusReply = StatusReply(items: seq<ConfigItem>, nrows: int32)

  /** A request together with the reply it received. */
  datatype Request =
    | NodeInfoRequest(nodeId: int16, info: Option<BackendInfo>)
    | PoolStatusRequest(status: Option<StatusReply>)
    | NodeCountRequest(count: int32)

  /** One call made on the client. */
  datatype Event =
    | SetTimeout(seconds: int16)
    | Connect(host: string, port: int16, user: string, pass: string, ok: bool)
    | Issue(request: Request)
    | Disconnect

  /** Where a caller stands in the protocol set timeout, connect, one request,
      disconnect. `Broken` is any departure from it. */
  datatype Phase = Idle | TimeoutSet | Open | Served | Broken

  /** One call read against the protocol. A departure is never recovered
      from, and the protocol is back at `Idle` only after a disconnect or a
      failed connect. */
  function Step(ph: Phase, e: Event): (next: Phase)
    ensures ph == Broken ==> next == Broken
    ensures next == Idle ==> e.Disconnect? || (e.Connect? && !e.ok)
  {
    match e
    case SetTimeout(_) => if ph == Idle || ph == TimeoutSet then TimeoutSet else Broken
    case Connect(_, _, _, _, ok) => if ph == TimeoutSet then (if ok then Open else Idle) else Broken
    case Issue(_) => if ph == Open then Served else Broken
    case Disconnect => if ph == Served then Idle else Broken
  }

  /** The phase reached from `ph` after the calls of `log`, in order. */
  function Run(ph: Phase, log: seq<Event>): (last: Phase)
    ensures ph == Broken ==> last == Broken
    ensures last == Idle && log != [] ==> log[|log| - 1].Disconnect? || (log[|log| - 1].Connect? && !log[|log| - 1].ok)
  {
    if log == [] then ph else Step(Run(ph, log[..|log| - 1]), log[|log| - 1])
  }

  /** Reading a log in two parts reads the whole of it. */
  lemma {:induction false} RunAppend(ph: Phase, a: seq<Event>, b: seq<Event>)
    ensures Run(ph, a + b) == Run(Run(ph, a), b)
  {
    if b == [] {
      assert a + b == a;
    } else {
      assert (a + b)[..|a + b| - 1] == a + b[..|b| - 1];
      RunAppend(ph, a, b[..|b| - 1]);
    }
  }

  class PcpClient {
    /** The process-wide timeout `pcp_set_timeout` sets. */
    var timeout: int16
    /** Whether a session is open. */
    var connected: bool
    /** How many times `pcp_connect` and `pcp_disconnect` have been called. */
    var connects: nat
    var disconnects: nat
    /** Every call made on the client, in order. */
    ghost var log: seq<Event>

    /** No session is open and the calls made so far followed the protocol. */
    ghost predicate Closed()
      reads this
    {
      !connected && Run(Idle, log) == Idle
    }

    constructor ()
      ensures Closed() && log == [] && connects == 0 && disconnects == 0
    {
      timeout := 0;
      connected := false;
      connects, disconnects := 0, 0;
      log := [];
    }

    /** pcp_set_timeout */
    method SetTimeout(seconds: int16)
      modifies this
      ensures timeout == seconds
      ensures connected == old(connected) && connects == old(connects) && disconnects == old(disconnects)
      ensures log == old(log) + [Event.SetTimeout(seconds)]
    {
      timeout := seconds;
      log := log + [Event.SetTimeout(seconds)];
    }

    /** pcp_connect: opens a session, or fails (a nonzero return in C). */
    method Connect(host: string, port: int16, user: string, pass: string) returns (ok: bool)
      requires !connected
      modifies this
      ensures connected == ok
      ensures connects == old(connects) + 1 && disconnects == old(disconnects) && timeout == old(timeout)
      ensures log == old(log) + [Event.Connect(host, port, user, pass, ok)]
    {
      ok :| true;
      connected := ok;
      connects := connects + 1;
      log := log + [Event.Connect(host, port, user, pass, ok)];
    }

    /** pcp_node_info: the backend's description, or `None` for NULL. */
    method NodeInfo(nodeId: int16) returns (info: Option<BackendInfo>)
      requires connected
      modifies this
      ensures connected && connects == old(connects) && disconnects == old(disconnects) && timeout == old(timeout)
      ensures log == old(log) + [Issue(NodeInfoRequest(nodeId, info))]
    {
      info :| true;
      log := log + [Issue(NodeInfoRequest(nodeId, info))];
    }

    /** pcp_pool_status: the rows and their count, or `None` for NULL. The
        library never reports more rows than it returns. */
    method PoolStatus() returns (status: Option<StatusReply>)
      requires connected
      modifies this
      ensures status.Some? ==> status.value.nrows as int <= |status.value.items|
      ensures connected && connects == old(connects) && disconnects == old(disconnects) && timeout == old(timeout)
      ensures log == old(log) + [Issue(PoolStatusRequest(status))]
    {
      status :| status.None? || status.value.nrows as int <= |status.value.items|;
      log := log + [Issue(PoolStatusRequest(status))];
    }

    /** pcp_node_count: the number of backends, -1 on failure. */
    method NodeCount() returns (count: int32)
      requires connected
      modifies this
      ensures connected && connects == old(connects) && disconnects == old(disconnects) && timeout == old(timeout)
      ensures log == old(log) + [Issue(NodeCountRequest(count))]
    {
      count :| true;
      log := log + [Issue(NodeCountRequest(count))];
    }

    /** pcp_disconnect */
    method Disconnect()
      requires connected
      modifies this
      ensures !connected
      ensures connects == old(connects) && disconnects == old(disconnects) + 1 && timeout == old(timeout)
      ensures log == old(log) + [Event.Disconnect]
    {
      connected := false;
      disconnects := disconnects + 1;
      log := log + [Event.Disconnect];
    }
  }
}
