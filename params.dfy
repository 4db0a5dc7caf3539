/** Connection-parameter resolution and validation, shared by the three entry
    points of pgpool_adm.c: pick the call shape by argument count, take the
    parameters from the arguments or from a foreign server and the caller's
    user mapping, then run the checks in their fixed order. */
module Params {
  import opened Wrappers
  import opened CInt
  import opened Options

  /** MAX_NUM_BACKENDS, the number of backend slots a pgpool cluster has
      (defined in pgpool's libpcp_ext.h). */
  const MaxNumBackends: int := 128

  /** Every error the three entry points can raise. The two catalog errors are
      raised by PostgreSQL's foreign-data lookups; the others carry the
      messages of `Message`. */
  datatype Error =
    | WrongArgCount
    | ServerNotFound
    | UserMappingNotFound
    | NodeIdOutOfRange
    | TimeoutOutOfRange
    | PortOutOfRange
    | NoUser
    | NoPassword
    | ConnectFailed
    | NodeInfoFailed
    | PoolStatusFailed
    | NodeCountFailed

  predicate IsCatalogError(e: Error) {
    e.ServerNotFound? || e.UserMappingNotFound?
  }

  /** The message the extension reports for each error it raises itself. */
  function Message(e: Error): (m: string)
    requires !IsCatalogError(e)
    ensures m != [] && m[|m| - 1] == '.'
  {
    match e
    case WrongArgCount => "Wrong number of argument."
    case NodeIdOutOfRange => "NodeID is out of range."
    case TimeoutOutOfRange => "Timeout is out of range."
    case PortOutOfRange => "PCP port out of range."
    case NoUser => "No user given."
    case NoPassword => "No password given."
    case ConnectFailed => "Cannot connect to PCP server."
    case NodeInfoFailed => "Cannot get node information."
    case PoolStatusFailed => "Cannot pool status information."
    case NodeCountFailed => "Cannot get node count."
  }

  /** Each error the extension raises itself has its own message. */
  lemma MessagesDistinct(e1: Error, e2: Error)
    requires !IsCatalogError(e1) && !IsCatalogError(e2)
    requires Message(e1) == Message(e2)
    ensures e1 == e2
  {
  }

  /** The arguments of the explicit call shape after the host name. */
  datatype ExplicitArgs = ExplicitArgs(timeout: int16, port: int16, user: string, pass: string)

  /** A foreign server as the catalog returns it: its options, and the options
      of the current user's mapping for it when there is one. */
  datatype ForeignServer = ForeignServer(options: seq<DefElem>, userMapping: Option<seq<DefElem>>)

  /** The foreign servers known to the catalog, by name. */
  type Catalog = map<string, ForeignServer>

  /** The argument counts of an entry point's explicit and named call shapes. */
  datatype Arity = Arity(explicit: nat, named: nat)

  /** `_pcp_node_info` takes a node id in front of the other arguments. */
  const NodeInfoArity: Arity := Arity(6, 2)
  /** `_pcp_pool_status` and `_pcp_node_count`. */
  const ServerArity: Arity := Arity(5, 1)

  /** The local variables once the call shape has been handled; `None` for a
      user or password pointer still NULL. */
  datatype RawParams = RawParams(host: string, timeout: int16, port: int16, user: Option<string>, pass: Option<string>)

  /** Parameters that passed every check, as handed to the PCP client. */
  datatype ConnParams = ConnParams(host: string, timeout: int16, port: int16, user: string, pass: string)

  /** What the argument-count dispatch and the option scans leave in the local
      variables, which start as the given host or server name, -1, -1, NULL
      and NULL. */
  function Resolve(nargs: int, arity: Arity, hostOrSrv: string, args: ExplicitArgs, catalog: Catalog): (r: Result<RawParams, Error>)
    ensures r == Failure(WrongArgCount) <==> nargs != arity.explicit && nargs != arity.named
    ensures r == Failure(ServerNotFound) <==>
              nargs != arity.explicit && nargs == arity.named && hostOrSrv !in catalog
    ensures r == Failure(UserMappingNotFound) <==>
              nargs != arity.explicit && nargs == arity.named && hostOrSrv in catalog &&
              catalog[hostOrSrv].userMapping.None?
    ensures r.Failure? ==> r.error in {WrongArgCount, ServerNotFound, UserMappingNotFound}
    ensures r.Success? && nargs == arity.explicit ==> r.value.user.Some? && r.value.pass.Some?
  {
    if nargs == arity.explicit then
      Success(RawParams(hostOrSrv, args.timeout, args.port, Some(args.user), Some(args.pass)))
    else if nargs == arity.named then
      if hostOrSrv !in catalog then Failure(ServerNotFound)
      else
        var server := catalog[hostOrSrv];
        match server.userMapping
        case None => Failure(UserMappingNotFound)
        case Some(mapping) =>
          Success(RawParams(
            TextSetting(server.options, "host", hostOrSrv),
            Int16Setting(server.options, "timeout", -1),
            Int16Setting(server.options, "port", -1),
            LastValue(mapping, "user"),
            LastValue(mapping, "password")))
    else
      Failure(WrongArgCount)
  }

  /** The dispatch on the argument count, with the two option scans. */
  method ResolveParams(nargs: int, arity: Arity, hostOrSrv: string, args: ExplicitArgs, catalog: Catalog)
    returns (r: Result<RawParams, Error>)
    ensures r == Resolve(nargs, arity, hostOrSrv, args, catalog)
  {
    if nargs == arity.explicit {
      r := Success(RawParams(hostOrSrv, args.timeout, args.port, Some(args.user), Some(args.pass)));
    } else if nargs == arity.named {
      if hostOrSrv !in catalog {
        return Failure(ServerNotFound);
      }
      var server := catalog[hostOrSrv];
      if server.userMapping.None? {
        return Failure(UserMappingNotFound);
      }
      var host, port, timeout := ScanServerOptions(server.options, hostOrSrv, -1, -1);
      var user, pass := ScanUserMapping(server.userMapping.value, None, None);
      r := Success(RawParams(host, timeout, port, user, pass));
    } else {
      r := Failure(WrongArgCount);
    }
  }

  /** The checks in the order they run; the first that fails is reported. */
  const ValidationOrder: seq<Error> := [NodeIdOutOfRange, TimeoutOutOfRange, PortOutOfRange, NoUser, NoPassword]

  /** Whether the check that reports `e` rejects the parameters; `nodeId` is
      `None` for the entry points that take no node id. */
  predicate CheckFails(e: Error, nodeId: Option<int16>, raw: RawParams) {
    match e
    case NodeIdOutOfRange => nodeId.Some? && (nodeId.value < 0 || nodeId.value as int >= MaxNumBackends)
    case TimeoutOutOfRange => raw.timeout < 0
    case PortOutOfRange => raw.port < 0 || raw.port as int > 65535
    case NoUser => raw.user.None?
    case NoPassword => raw.pass.None?
    case _ => false
  }

  /** The validity checks on the resolved parameters. */
  function Validate(nodeId: Option<int16>, raw: RawParams): (r: Result<ConnParams, Error>)
    ensures r.Failure? ==>
      exists k :: 0 <= k < |ValidationOrder| && r.error == ValidationOrder[k] &&
        CheckFails(r.error, nodeId, raw) &&
        forall j :: 0 <= j < k ==> !CheckFails(ValidationOrder[j], nodeId, raw)
    ensures r.Success? <==> forall k :: 0 <= k < |ValidationOrder| ==> !CheckFails(ValidationOrder[k], nodeId, raw)
    ensures r.Success? ==>
              raw.user.Some? && raw.pass.Some? &&
              r.value == ConnParams(raw.host, raw.timeout, raw.port, raw.user.value, raw.pass.value)
    ensures r.Success? ==> 0 <= r.value.timeout && 0 <= r.value.port
    ensures r == Failure(PortOutOfRange) ==> raw.port < 0
  {
    if nodeId.Some? && (nodeId.value < 0 || nodeId.value as int >= MaxNumBackends) then
      assert CheckFails(ValidationOrder[0], nodeId, raw);
      Failure(NodeIdOutOfRange)
    else if raw.timeout < 0 then
      assert CheckFails(ValidationOrder[1], nodeId, raw);
      Failure(TimeoutOutOfRange)
    else if raw.port < 0 || raw.port as int > 65535 then
      assert CheckFails(ValidationOrder[2], nodeId, raw);
      Failure(PortOutOfRange)
    else if raw.user.None? then
      assert CheckFails(ValidationOrder[3], nodeId, raw);
      Failure(NoUser)
    else if raw.pass.None? then
      assert CheckFails(ValidationOrder[4], nodeId, raw);
      Failure(NoPassword)
    else
      Success(ConnParams(raw.host, raw.timeout, raw.port, raw.user.value, raw.pass.value))
  }

  /** Resolution followed by validation: what an entry point knows before it
      touches the PCP client. */
  function Prepare(nargs: int, arity: Arity, nodeId: Option<int16>, hostOrSrv: string, args: ExplicitArgs, catalog: Catalog): Result<ConnParams, Error> {
    match Resolve(nargs, arity, hostOrSrv, args, catalog)
    case Failure(e) => Failure(e)
    case Success(raw) => Validate(nodeId, raw)
  }

  /** Resolution and validation as the entry points run them. */
  method PrepareParams(nargs: int, arity: Arity, nodeId: Option<int16>, hostOrSrv: string, args: ExplicitArgs, catalog: Catalog)
    returns (pre: Result<ConnParams, Error>)
    ensures pre == Prepare(nargs, arity, nodeId, hostOrSrv, args, catalog)
  {
    var raw := ResolveParams(nargs, arity, hostOrSrv, args, catalog);
    if raw.Failure? {
      return Failure(raw.error);
    }
    pre := Validate(nodeId, raw.value);
  }

  /** A foreign server whose options give host `h`, port `p` and timeout `t`
      in decimal, and whose user mapping gives user `u` and password `pw`
      (in any order, with other names mixed in, the last entry of each name
      counting), resolves to exactly what the explicit call shape with the
      same values gives. */
  lemma NamedMatchesExplicit(arity: Arity, srvName: string, h: string, p: nat, t: nat, u: string, pw: string,
                             unused: ExplicitArgs, catalog: Catalog)
    requires arity.explicit != arity.named
    requires p < 0x8000 && t < 0x8000
    requires srvName in catalog && catalog[srvName].userMapping.Some?
    requires LastValue(catalog[srvName].options, "host") == Some(h)
    requires LastValue(catalog[srvName].options, "port") == Some(Decimal(p))
    requires LastValue(catalog[srvName].options, "timeout") == Some(Decimal(t))
    requires LastValue(catalog[srvName].userMapping.value, "user") == Some(u)
    requires LastValue(catalog[srvName].userMapping.value, "password") == Some(pw)
    ensures Resolve(arity.named, arity, srvName, unused, catalog)
         == Resolve(arity.explicit, arity, h, ExplicitArgs(t as int16, p as int16, u, pw), map[])
  {
    Atoi16Decimal(p);
    Atoi16Decimal(t);
  }

  /** In the named shape the user and the password come from the user mapping
      alone, and a mapping without a `user` (or `password`) entry leaves that
      pointer NULL: once the earlier checks pass, "No user given." (or
      "No password given.") is reported exactly then. */
  lemma MissingCredentialReported(arity: Arity, nodeId: Option<int16>, srvName: string, args: ExplicitArgs, catalog: Catalog)
    requires arity.explicit != arity.named
    requires srvName in catalog && catalog[srvName].userMapping.Some?
    ensures Resolve(arity.named, arity, srvName, args, catalog).Success?
    ensures var raw := Resolve(arity.named, arity, srvName, args, catalog).value;
            var mapping := catalog[srvName].userMapping.value;
            var pre := Prepare(arity.named, arity, nodeId, srvName, args, catalog);
            var earlierPass := !CheckFails(NodeIdOutOfRange, nodeId, raw) && raw.timeout >= 0 && raw.port >= 0;
            && (pre == Failure(NoUser) <==>
                  earlierPass && forall i :: 0 <= i < |mapping| ==> mapping[i].0 != "user")
            && (pre == Failure(NoUser) ==> Message(pre.error) == "No user given.")
            && (pre == Failure(NoPassword) ==> Message(pre.error) == "No password given.")
            && (pre == Failure(NoPassword) <==>
                  earlierPass && (exists i :: 0 <= i < |mapping| && mapping[i].0 == "user") &&
                  forall i :: 0 <= i < |mapping| ==> mapping[i].0 != "password")
            && (pre.Success? ==>
                  Some(pre.value.user) == LastValue(mapping, "user") &&
                  Some(pre.value.pass) == LastValue(mapping, "password"))
  {
    var raw := Resolve(arity.named, arity, srvName, args, catalog).value;
    var mapping := catalog[srvName].userMapping.value;
    assert raw.user == LastValue(mapping, "user");
    assert raw.pass == LastValue(mapping, "password");
  }

  /** A `port` option between 32768 and 65535, a valid TCP port, is narrowed
      into a negative `int16`, so "PCP port out of range." is reported once
      the node id and timeout checks pass. */
  lemma HighPortOptionRejected(arity: Arity, nodeId: Option<int16>, srvName: string, n: nat, args: ExplicitArgs, catalog: Catalog)
    requires arity.explicit != arity.named
    requires 0x8000 <= n < 0x1_0000
    requires srvName in catalog && catalog[srvName].userMapping.Some?
    requires LastValue(catalog[srvName].options, "port") == Some(Decimal(n))
    requires nodeId.Some? ==> 0 <= nodeId.value as int < MaxNumBackends
    requires Int16Setting(catalog[srvName].options, "timeout", -1) >= 0
    ensures Prepare(arity.named, arity, nodeId, srvName, args, catalog) == Failure(PortOutOfRange)
    ensures Message(Prepare(arity.named, arity, nodeId, srvName, args, catalog).error) == "PCP port out of range."
  {
    Atoi16HighIsNegative(n);
  }
}
