# pgpool_adm: the three PCP entry points

pgpool_adm is a PostgreSQL extension that lets SQL query a pgpool-II server
over PCP, pgpool's control protocol. This project models its three
SQL-callable functions:

- `_pcp_node_info` returns one row of four columns about one backend: its
  host name, port, status and weight. The weight column is not modelled.
- `_pcp_pool_status` returns the pool's configuration rows. It is a
  set-returning function.
- `_pcp_node_count` returns the number of backends.

Each of them runs these steps:

1. It picks a call shape from the number of arguments.
   - Explicit shape: host, timeout, port, user and password are arguments.
   - Named shape: a foreign-server name is the only connection argument.
2. In the named shape, it reads `host`, `port` and `timeout` from the foreign
   server's options, and `user` and `password` from the caller's user
   mapping. A later option of the same name overwrites an earlier one.
   `port` and `timeout` pass through C's `atoi` into `int16` variables.
3. It runs the validity checks in a fixed order and reports the first one
   that fails.
4. It runs one PCP session: set the timeout, connect, issue one request,
   disconnect.
5. It shapes the reply into its result.

The model is written in these modules:

- `CInt` (cint.dfy): the `int16`/`int32` C types, two's-complement narrowing,
  and `atoi`.
- `Options` (options.dfy): the two option-list scans, written as loops and
  proved against the "last entry wins" function `LastValue`.
- `Params` (params.dfy): argument-count dispatch, catalog lookup and the
  ordered checks.
- `Pcp` (pcp.dfy): the PCP client library as a class.
  - Its replies are nondeterministic.
  - It keeps a ghost log of the calls made on it.
  - A small automaton (`Run`) reads that log against the order
    set timeout, connect, request, disconnect.
- `PgpoolAdm` (pgpool_adm.dfy):
  - the status labels;
  - the `-1` sentinel of the node count;
  - the cross-call state of the pool-status set-returning function, as a
    class over an array;
  - the three entry points.
- `Wrappers` (wrappers.dfy): `Option` and `Result`.

Each entry point:

- starts and ends with the client closed;
- changes nothing on the client when resolution or validation fails;
- otherwise connects exactly once, and disconnects exactly when the connect
  succeeded;
- returns exactly the outcome its specification function gives for the
  parameters and the client's replies.

Some consequences of the code as written:

- **Port type.** The port is kept in an `int16` (`pgpool_adm.c:52`, `:91`).
  - The `port > 65535` test (`pgpool_adm.c:128`) can therefore never fire.
  - A `port` option from 32768 to 65535, although a valid TCP port, wraps to
    a negative value and is rejected as out of range
    (`Params.HighPortOptionRejected`).
- **Missing user or password.** Only a user or password that was never set
  (a NULL pointer, `pgpool_adm.c:131-135`) is rejected, so an empty string
  passes.
- **Status codes.** The status switch (`pgpool_adm.c:168-182`) has no
  default arm. The model's `BackendStatus` is the closed set of the four
  codes the library defines.
- **Node-id check.** `_pcp_pool_status` and `_pcp_node_count` take no node
  id and skip the node-id check. `Params.CheckFails` is given `None` for them.

## Model

| member | source | states |
|---|---|---|
| CInt.ToInt16 | pgpool_adm.c:91 | storing an int into an int16 keeps it modulo 65536 and leaves a value that fits unchanged |
| CInt.SkipSpaces | pgpool_adm.c:91 | atoi first skips exactly the leading white space: what is skipped is all white space, and what remains does not start with white space |
| CInt.LeadingDigits | pgpool_adm.c:91 | atoi reads the longest run of digits: a prefix, all digits, and followed by no further digit |
| CInt.SignedValue | pgpool_adm.c:91 | after the white space, text that starts with neither a sign nor a digit reads as 0; a negative value needs a leading minus, a positive one no minus |
| CInt.AtoiValue | pgpool_adm.c:91 | atoi of text whose first non-space character is neither a sign nor a digit is 0; a negative result needs a minus as that first character |
| CInt.Atoi16 | pgpool_adm.c:91-95 | `atoi` stored into an int16 variable keeps the value read modulo 65536, unchanged when it fits |
| CInt.Decimal | pgpool_adm.c:89-96 | the decimal rendering of an option value is non-empty and made of digits |
| CInt.DigitsValueDecimal | pgpool_adm.c:89-96 | the digits of a rendered number read back as that number |
| CInt.LeadingDigitsStops | pgpool_adm.c:89-96 | the digit scan stops at the first character that is not a digit |
| CInt.DigitsRead | pgpool_adm.c:89-96 | the digit scan over a rendering followed by non-digits yields the number |
| CInt.NoSpaceFirst | pgpool_adm.c:89-96 | text that does not start with white space is read by atoi from its first character |
| CInt.AtoiDecimal | pgpool_adm.c:89-96 | atoi reads back n and -n from their decimal renderings, whatever non-digit text follows |
| CInt.AtoiUnsigned | pgpool_adm.c:89-96 | atoi reads back n from its decimal rendering followed by non-digit text |
| CInt.AtoiNegated | pgpool_adm.c:89-96 | atoi reads back -n from a minus sign, n's decimal rendering and non-digit text |
| CInt.Atoi16Decimal | pgpool_adm.c:89-96 | a port or timeout option that fits an int16 is stored unchanged |
| CInt.Atoi16HighIsNegative | pgpool_adm.c:52 | a port option from 32768 to 65535 is stored as that value minus 65536, which is negative |
| CInt.ToInt16High | pgpool_adm.c:91 | the narrowing of a value from 32768 to 65535 subtracts 65536 |
| Options.LastValue | pgpool_adm.c:81-111 | the value a scan leaves for a name is absent exactly when no entry has that name |
| Options.LastValueIsLast | pgpool_adm.c:81-111 | a value found belongs to an entry with that name after which no entry has that name |
| Options.LastValueAppend | pgpool_adm.c:81-111 | one more entry changes the value for its own name only, and sets it to that entry's value |
| Options.TextSettingSource | pgpool_adm.c:85-88 | the host setting is the server name when no option is named host, and otherwise the value of a host option |
| Options.Int16SettingSource | pgpool_adm.c:89-96 | the port or timeout setting is -1 when no option has that name, and otherwise atoi of the value of such an option |
| Options.TextSettingAppend | pgpool_adm.c:85-88 | one more entry changes the host setting only when it is named host |
| Options.Int16SettingAppend | pgpool_adm.c:89-96 | one more entry changes the port or timeout setting only when it has that name, to atoi of its value |
| Options.ScanServerOptions | pgpool_adm.c:81-97 | the loop over the server's options leaves the last host given (else the given name), and atoi of the last port and timeout given (else -1) |
| Options.ScanUserMapping | pgpool_adm.c:99-111 | the loop over the user mapping leaves the last user and password given, and NULL for a name never given |
| Params.Resolve | pgpool_adm.c:63-116 | wrong argument count, unknown server and missing user mapping are reported exactly in their cases and are the only resolution errors; the explicit shape always supplies user and password |
| Params.ResolveParams | pgpool_adm.c:63-116 | the dispatch with its two scans computes `Resolve` |
| Params.Validate | pgpool_adm.c:122-135 | a failure is the first failing check in the order node id, timeout, port, user, password; success holds exactly when no check fails, and yields the resolved values with a non-negative timeout and port; a port rejection always means a negative port |
| Params.PrepareParams | pgpool_adm.c:63-135 | resolution followed by validation computes `Prepare` |
| Params.Message | pgpool_adm.c:115-160 | each error the extension raises itself reports a message, a sentence ending in a full stop |
| Params.MessagesDistinct | pgpool_adm.c:115-160 | no two of those errors share a message |
| Params.NamedMatchesExplicit | pgpool_adm.c:63-111 | a foreign server whose last host, port and timeout options and whose user mapping's last user and password entries give some values, in any order and among other names, resolves to the same parameters as the explicit call with those values |
| Params.MissingCredentialReported | pgpool_adm.c:99-135 | once the earlier checks pass, "No user given." is reported exactly when the mapping has no user entry, "No password given." exactly when it has a user but no password entry; on success the credentials are the mapping's last ones |
| Params.HighPortOptionRejected | pgpool_adm.c:89-129 | a port option from 32768 to 65535 makes validation fail with the message "PCP port out of range." once the node id and timeout pass |
| Pcp.RunAppend | pgpool_adm.c:150-161 | reading a call log in two parts reads the whole log |
| Pcp.Step | pgpool_adm.c:150-188 | one call read against the order set timeout, connect, request, disconnect: a departure is never recovered from, and the order returns to its start only after a disconnect or a failed connect |
| Pcp.Run | pgpool_adm.c:150-188 | a log read from a departure stays a departure, and a non-empty log read back to the start ends in a disconnect or a failed connect |
| Pcp.PcpClient.constructor | pgpool_adm.c:150 | a fresh client has no session open and an empty log |
| Pcp.PcpClient.SetTimeout | pgpool_adm.c:150 | the timeout is set, the session state is unchanged, and the call is logged |
| Pcp.PcpClient.Connect | pgpool_adm.c:152 | the session is open exactly when the connect succeeded; one connect is counted and logged |
| Pcp.PcpClient.NodeInfo | pgpool_adm.c:157 | the request and its reply are logged; the session stays open |
| Pcp.PcpClient.PoolStatus | pgpool_adm.c:324 | the row count never exceeds the rows returned; the request is logged |
| Pcp.PcpClient.NodeCount | pgpool_adm.c:500 | the request and its reply are logged; the session stays open |
| Pcp.PcpClient.Disconnect | pgpool_adm.c:159 | the session is closed; one disconnect is counted and logged |
| PgpoolAdm.StatusLabel | pgpool_adm.c:168-182 | each backend status has its own label, which maps back to that status |
| PgpoolAdm.NodeInfoRowOf | pgpool_adm.c:164-183 | the row carries the backend's host name and port, and a label that maps back to its status |
| PgpoolAdm.NodeCountResult | pgpool_adm.c:500-508 | the count is narrowed to int16; -1 is reported as "Cannot get node count." and is never returned; a count that fits is returned unchanged |
| PgpoolAdm.Rows | pgpool_adm.c:346-358 | the rows returned are the first nrows of the reply, or none when nrows is not positive |
| PgpoolAdm.PoolStatusDrain.constructor | pgpool_adm.c:346-358 | the drain holds the reply's rows and will return the first nrows of them, or none when nrows is not positive |
| PgpoolAdm.PoolStatusDrain.Next | pgpool_adm.c:364-395 | each call returns the next remaining row and consumes it; once none remain, every call reports that the set is done |
| PgpoolAdm.SessionFollowsProtocol | pgpool_adm.c:150-188 | a session (set timeout, connect, and the request and disconnect only when connected) keeps the client's log in the protocol and closed |
| PgpoolAdm.NodeInfoOutcome | pgpool_adm.c:150-185 | a row is returned exactly when the parameters are valid, the connect succeeds and the reply is non-NULL; otherwise the resolution or validation error, then "Cannot connect", then "Cannot get node information", in that order; the row describes the reply |
| PgpoolAdm.NodeCountOutcome | pgpool_adm.c:493-508 | a resolution or validation error comes first, then a failed connect; a count returned is never -1 and is the reply narrowed to int16, and a reply that fits is returned unless it is -1 |
| PgpoolAdm.PcpNodeInfo | pgpool_adm.c:46-196 | the client is left closed; nothing touches it when resolution or validation fails; otherwise one connect and one disconnect exactly when connected; the row or the error is the one `NodeInfoOutcome` gives |
| PgpoolAdm.PcpPoolStatus | pgpool_adm.c:205-361 | the same session guarantees; resolution, validation, connect and request failures are reported in that order; on success a fresh drain holds exactly the rows the reply yields |
| PgpoolAdm.PcpNodeCount | pgpool_adm.c:408-509 | the same session guarantees; the result is the one `NodeCountOutcome` gives, and a successful count is never -1 |

## Left out

- PgpoolAdm.PcpNodeInfo: the weight column (`backend_weight / RAND_MAX`, `pgpool_adm.c:184`) is not modelled. It is floating point, and RAND_MAX is a constant of the C library.
- PgpoolAdm.NodeInfoRowOf: the backend port is kept as an unbounded int. The `Int16GetDatum` conversion (`pgpool_adm.c:166`) is not modelled.
- CInt.AtoiValue: atoi is modelled over unbounded integers and then wrapped into int16. A value outside C's 32-bit int range is undefined behaviour in C and is not modelled.
- CInt.ToInt16: narrowing into int16 is implementation-defined in C. The model uses two's-complement wrap-around, which is what the usual compilers do.
- PostgreSQL's function-call interface is not modelled: Datum conversion, tuple descriptors and tuple building, memory contexts and `SRF_*` macros beyond the row cursor.
- The catalog is a map from server name to its options and the current user's mapping. The catalog's own error messages are not modelled; they appear only as `ServerNotFound` and `UserMappingNotFound`.
- The PCP wire protocol is not modelled. Each library call returns a nondeterministic reply, constrained only as the `Pcp.PcpClient` contracts say.
- Pcp.PcpClient.PoolStatus: the promise that `nrows` never exceeds the rows returned is assumed of the library, which is not part of this model.
- Pcp.PcpClient.constructor: the initial process-wide timeout is taken to be 0. The extension always sets it before connecting.
- Concurrency and the process-wide scope of the PCP session are not modelled; one client object stands for the process.
- Freeing memory is not modelled. This includes the `free(status)` at `pgpool_adm.c:397`, which follows the `SRF_RETURN_*` macros that return and so is never reached.
- MAX_NUM_BACKENDS is taken as 128. It is defined in pgpool's libpcp_ext.h, which is not part of this model.
- The host executor that calls the set-returning function repeatedly is not modelled; `PoolStatusDrain.Next` models one call.
