# taosConn cgo binding — a verified model

This project models the part of the TDengine Go driver that calls the
native client library through cgo: the `taosConn` methods `taosConnect`,
`taosQuery`, `taosFetchBlock`, `taos_close`, `taos_error` and
`free_result` (`taosSql/taosSqlCgo.go`). These methods allocate and free C
strings, hand them to libtaos, keep the connection and result handles in
the receiver's fields, and turn a nonzero native status into a
`TaosError` whose code is the status's low 16 bits.

Layout:

- `conversions.dfy` (module `Conversions`) holds Go's fixed-width
  conversions, written out over unbounded integers:
  - `int32(code) & 0xffff`, through a bitwise `And` on naturals and a proof
    that masking with 2^k − 1 is the remainder mod 2^k;
  - the `(C.ushort)(port)` cast;
  - the `uint(...)` cast of a C int.
- `errors.dfy` (module `Errors`) holds the `TaosError` record and the fixed
  "invalid connection" error.
- `native.dfy` (module `Native`) models the foreign side as an oracle.
  `Native.State` records:
  - the live C strings;
  - the handles libtaos has handed out, freed and closed;
  - what each result reports;
  - the handle-creating and handle-releasing calls, in order.

  Each native call is a function on that state. Its precondition is what C
  needs of the caller. Freeing a C string twice, reading or freeing a
  result after `taos_free_result`, and closing a connection twice therefore
  do not verify. libtaos's answers enter as parameters: whether
  `taos_connect` succeeded, the status, message, field count and affected
  rows of a query, and the row count of a fetched block. Handles are
  counted up from 1 and never reused; 0 is NULL.
- `conn_spec.dfy` (module `ConnSpec`) is a state machine over values.
  - Its state is the receiver's fields together with libtaos's handle
    counter and its sets of freed and closed handles.
  - Each function gives one method's effect and states what the source
    promises about it. `Inv` is the invariant every method keeps: the
    result field is NULL or a live result, and the connection field is
    NULL or an open connection.
  - `Run` and `RunNeverReusesFreed` are about any sequence of calls.
- `taos_sql_cgo.dfy` (module `TaosSqlCgo`) has the class `TaosConn`. Its
  fields are the Go struct's, plus `native`, the foreign state the calls
  act on.
  - Each method follows the Go body statement by statement: allocation,
    deferred frees in last-in-first-out order on every return path, and
    the branches on NULL and on the status.
  - Each method is proved to move the receiver exactly as the matching
    `ConnSpec` function says.
  - Each method is proved to leave the C heap as it found it, so every C
    string it allocated is freed on every path. The precondition of
    `Native.Free` makes sure no string is freed twice.

## Model

| member | source | states |
|---|---|---|
| Conversions.AndLowMask | taosSql/taosSqlCgo.go:83 | masking a natural with 2^k − 1 keeps exactly its remainder mod 2^k |
| Conversions.Low16 | taosSql/taosSqlCgo.go:82-85 | the code of the error for a failed statement, `int32(code) & 0xffff`, lies in 0..65535, equals the status mod 2^16, and leaves a status already in that range unchanged |
| Conversions.ToUShort | taosSql/taosSqlCgo.go:53 | the `C.ushort` cast of the port is below 2^16, congruent to the port mod 2^16, and the identity on 0..65535 |
| Conversions.ToUint | taosSql/taosSqlCgo.go:103 | the `uint` cast of the block row count is below 2^64, congruent to it mod 2^64, the identity on non-negative counts, and the count plus 2^64 on negative ones |
| Native.CRead | taosSql/taosSqlCgo.go:41-43 | what C reads through a `C.CString` copy is the longest NUL-free prefix of the Go string, and the whole string when it holds no NUL |
| Native.Release | taosSql/taosSqlCgo.go:115 | freeing or closing a handle adds exactly that handle to the released set; NULL adds nothing |
| Native.FreeUndoesAlloc | taosSql/taosSqlCgo.go:44-46 | freeing the C string allocated last gives back the heap as it was before that allocation |
| ConnSpec.ConnectArgs | taosSql/taosSqlCgo.go:48-54 | an empty ip passes a NULL host and port 0; otherwise the host is the ip and the port is cast to 16 bits; libtaos sees each of host, user, password and database up to its first NUL, so a string without NUL reaches it unchanged |
| ConnSpec.Connect | taosSql/taosSqlCgo.go:56-63 | a NULL native handle gives no handle and exactly the "invalid connection" error; a non-NULL handle is returned with no error and is fresh: it is the next handle libtaos hands out, and the handle counter moves past it exactly when the connection succeeds; the receiver is untouched |
| ConnSpec.Query | taosSql/taosSqlCgo.go:66-97 | keeps `Inv`; the previous result is freed, for the first time; nothing else but the new result is freed; the handle counter moves by one exactly when taos_query returns a result; an error comes back exactly when the status is nonzero, with 0 fields, the masked code, the native message as `C.GoString` reads it (up to its first NUL), the new result freed and the field NULL; on success the field count is returned and the new result is kept live; only a zero-field success sets affectedRows from the native count and insertId to 0, otherwise both are unchanged |
| ConnSpec.QueryCalls | taosSql/taosSqlCgo.go:71-80 | the calls taosQuery makes are, in order: taos_free_result of the previous result if there was one, taos_query on the connection with the statement text up to its first NUL, and on failure taos_free_result of the new result |
| ConnSpec.FailureWithMaskedZeroCode | taosSql/taosSqlCgo.go:78-85 | every nonzero status whose low 16 bits are zero (0x10000, −2^31, …) still fails, with code 0 |
| ConnSpec.FetchBlock | taosSql/taosSqlCgo.go:99-105 | no error, block offset 0, block size equal to the returned count, which is the native count if non-negative and the native count plus 2^64 if negative; nothing else changes |
| ConnSpec.Close | taosSql/taosSqlCgo.go:107-110 | the connection field becomes NULL; the old connection, if any, is closed for the first time; nothing else changes |
| ConnSpec.FreeResult | taosSql/taosSqlCgo.go:112-123 | the result field becomes NULL; the old result, if any, is freed for the first time; nothing else changes |
| ConnSpec.CloseTwice | taosSql/taosSqlCgo.go:107-110 | a second taos_close after the first changes nothing |
| ConnSpec.FreeResultTwice | taosSql/taosSqlCgo.go:119-123 | a second free_result after the first changes nothing |
| ConnSpec.Step | taosSql/taosSqlCgo.go:40-123 | every method keeps `Inv`, and the freed and closed sets and the handle counter only grow |
| ConnSpec.Run | taosSql/taosSqlCgo.go:40-123 | any sequence of method calls keeps `Inv`, and the released sets and the handle counter only grow |
| ConnSpec.RunNeverReusesFreed | taosSql/taosSqlCgo.go:71-74 | after any sequence of calls, a result once freed stays freed and is never held in the result field again |
| TaosSqlCgo.TaosConn.TaosConnect | taosSql/taosSqlCgo.go:40-64 | moves as `ConnSpec.Connect`; logs one taos_connect with the arguments given by `ConnectArgs`; allocates three C strings, or four with an ip, and frees all of them |
| TaosSqlCgo.TaosConn.TaosQuery | taosSql/taosSqlCgo.go:66-97 | moves as `ConnSpec.Query`; logs exactly the calls of `ConnSpec.QueryCalls`; records the reply under the new result handle (or NULL); allocates the statement's C string and frees it on both return paths |
| TaosSqlCgo.TaosConn.TaosFetchBlock | taosSql/taosSqlCgo.go:99-105 | moves as `ConnSpec.FetchBlock` and returns its row count and no error |
| TaosSqlCgo.TaosConn.TaosClose | taosSql/taosSqlCgo.go:107-110 | moves as `ConnSpec.Close`; the native state is that after one taos_close of the old handle |
| TaosSqlCgo.TaosConn.TaosError | taosSql/taosSqlCgo.go:112-117 | moves as `ConnSpec.FreeResult`; the native state is that after one taos_free_result of the old result |
| TaosSqlCgo.TaosConn.FreeResult | taosSql/taosSqlCgo.go:119-123 | moves as `ConnSpec.FreeResult`; the native state is that after one taos_free_result of the old result |

Three behaviours of the code that the model keeps:

- taosQuery frees the previous result before every statement, whatever
  the new statement's outcome.
- taosFetchBlock never reports an error. A negative native row count
  becomes a large `uint` (`ToUint`).
- A repeated `taos_close` or `free_result` passes NULL to libtaos rather
  than skipping the call. The model takes libtaos to ignore NULL, as
  `Native.Release` says.

## Left out

- The behaviour of libtaos itself (networking, the server, what a query
  returns) is not modelled: it is an oracle whose answers are parameters.
- The value of `errors.TSC_INVALID_CONNECTION` is left unspecified. The errors package is not part of this model.
- `mc.block` and the `TAOS_ROW` it points to are not modelled. Only `blockOffset` and `blockSize` are.
- The result of a failed `taos_query` is modelled as read and freed like any other result. What libtaos does with a NULL result in `taos_errno`/`taos_errstr` comes from the oracle too.
- The order in which the deferred `C.free` calls run is not recorded in the native state. The model performs them in Go's last-in-first-out order and proves only that every allocated C string is freed exactly once.
- `TaosSqlCgo.TaosConn.native` is not a field of the Go struct. It stands for the foreign world the native calls change.
- Building a `taosConn` (in the connector that owns it) is not part of this model. The class constructor only sets up a record with a connection and no result.
- Concurrent use of one connection is not modelled.
- Converting and scanning the rows of a block (the row reader) is not part of this model.
- The command-line example program `uint.go` is not part of this model.
- Handles are modelled as objects, not addresses: each new connection or result gets a handle never used before. A real libtaos may hand out the address of a freed result again, so `freed`, `Inv` and `ConnSpec.RunNeverReusesFreed` speak of handle objects rather than of pointer values.
- `Conversions.ToUint` assumes a 64-bit platform, where Go's `uint` has 64 bits. A 32-bit build, where a negative row count would wrap modulo 2^32, is not modelled.
- Native.Connect, Native.Query, Native.Errstr: Go strings are byte sequences and C strings are NUL-terminated bytes. The model uses sequences of characters and does not model the encoding of text into bytes. It does model C reading a string only up to its first NUL (`Native.CRead`).
- `UserChar` (lines 35-38) is unused by the modelled methods and is left out.
