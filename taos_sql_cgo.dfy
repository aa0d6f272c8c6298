/** The cgo binding's bookkeeping on a taosConn: connecting, issuing a
    statement, fetching a block, and releasing the result and the
    connection. Every native call goes through the oracle functions of
    module Native, whose preconditions rule out using or releasing a
    handle or a C string that is already gone. */
module TaosSqlCgo {
  import opened Conversions
  import opened Native
  import Errors
  import ConnSpec

  class TaosConn {
    var taos: Handle
    var result: Handle
    var affectedRows: int
    var insertId: int
    var blockOffset: int
    var blockSize: nat
    /** The C heap and libtaos as this connection's calls leave them. The
        Go struct has no such field: it stands for the foreign world the
        native calls act on. */
    var native: Native.State

    /** The receiver and the native handle bookkeeping as one value. */
    ghost function World(): ConnSpec.World
      reads this
    {
      ConnSpec.World(
        ConnSpec.Conn(taos, result, affectedRows, insertId, blockOffset, blockSize),
        native.next, native.freed, native.closed)
    }

    /** `result` is NULL or a live result handle, `taos` is NULL or an open
        connection. */
    ghost predicate Valid()
      reads this
    {
      HeapValid(native) && ConnSpec.Inv(World())
      && (result != Nil ==> result in native.replies)
    }

    /** A connection record as its creator builds it (elsewhere in the
        driver), holding a connection handle and no result. */
    constructor (native: Native.State, taos: Handle)
      requires HeapValid(native)
      requires ConnSpec.Inv(ConnSpec.World(ConnSpec.Conn(taos, Nil, 0, 0, 0, 0), native.next, native.freed, native.closed))
      ensures Valid() && this.native == native
      ensures World() == ConnSpec.World(ConnSpec.Conn(taos, Nil, 0, 0, 0, 0), native.next, native.freed, native.closed)
    {
      this.taos := taos;
      result := Nil;
      affectedRows := 0;
      insertId := 0;
      blockOffset := 0;
      blockSize := 0;
      this.native := native;
    }

    /** taosConnect: open a native connection. Only the native state
        changes; the caller stores the handle. `ok` is the native answer. */
    method TaosConnect(ip: string, user: string, pass: string, db: string, port: int, ok: bool)
      returns (handle: Handle, err: Option<Errors.TaosError>)
      requires Valid()
      modifies this`native
      ensures var c := ConnSpec.Connect(old(World()), ok);
        World() == c.world && handle == c.taos && err == c.err
      ensures Valid()
      ensures native.calls == old(native.calls) + [CallConnect(ConnSpec.ConnectArgs(ip, user, pass, db, port), handle)]
      ensures native.replies == old(native.replies)
      // three or four C strings are allocated, and all of them are freed
      ensures native.nextPtr == old(native.nextPtr) + (if |ip| == 0 then 3 else 4)
      ensures native.cstrings == old(native.cstrings)
    {
      ghost var m0 := native.cstrings;
      var (n1, cuser) := CString(native, user);
      var (n2, cpass) := CString(n1, pass);
      var (n3, cdb) := CString(n2, db);
      native := n3;
      var cip: Option<CPtr> := None;
      var taosObj: Handle;
      if |ip| == 0 {
        var (n4, h) := Native.Connect(native, None, cuser, cpass, cdb, 0, ok);
        native, taosObj := n4, h;
      } else {
        var (n4, p) := CString(native, ip);
        cip := Some(p);
        var (n5, h) := Native.Connect(n4, cip, cuser, cpass, cdb, ToUShort(port), ok);
        native, taosObj := n5, h;
      }

      if taosObj == Nil {
        handle, err := Nil, Some(Errors.InvalidConnection);
      } else {
        handle, err := taosObj, None;
      }

      // the deferred frees of both return paths, in reverse order of deferral
      if cip.Some? {
        FreeUndoesAlloc(n3.cstrings, cip.value, ip);
        native := Free(native, cip.value);
      }
      FreeUndoesAlloc(n2.cstrings, cdb, db);
      native := Free(native, cdb);
      FreeUndoesAlloc(n1.cstrings, cpass, pass);
      native := Free(native, cpass);
      FreeUndoesAlloc(m0, cuser, user);
      native := Free(native, cuser);
    }

    /** taosQuery: run one statement. `reply` is what libtaos reports about
        it. */
    method TaosQuery(sqlstr: string, reply: QueryReply) returns (n: int, err: Option<Errors.TaosError>)
      requires Valid()
      modifies this`result, this`affectedRows, this`insertId, this`native
      ensures var q := ConnSpec.Query(old(World()), reply);
        World() == q.world && n == q.fields && err == q.err
      ensures Valid()
      // the previous result is released before the statement is sent,
      // and a failed result is released before returning
      ensures native.calls == ConnSpec.QueryCalls(old(native.calls), old(World()), taos, sqlstr, reply)
      // what libtaos reports about the new result (or about NULL) is recorded
      ensures native.replies == old(native.replies)[(if reply.isNull then Nil else old(native.next)) := reply]
      // the statement text is freed on both return paths
      ensures native.nextPtr == old(native.nextPtr) + 1
      ensures native.cstrings == old(native.cstrings)
    {
      ghost var m0, r0, h0 := native.cstrings, native.replies, if reply.isNull then Nil else native.next;
      var (n1, csqlstr) := CString(native, sqlstr);
      native := n1;
      if result != Nil {
        native := Native.FreeResult(native, result);
        result := Nil;
      }
      var (n2, res) := Native.Query(native, taos, csqlstr, reply);
      native, result := n2, res;
      assert native.replies == r0[h0 := reply];
      assert ConnSpec.Inv(World());
      FreeUndoesAlloc(m0, csqlstr, sqlstr);
      var code := Errno(native, result);
      if code != 0 {
        var errStr := Errstr(native, result);
        TaosError();
        assert ConnSpec.Inv(World());
        native := Free(native, csqlstr);
        return 0, Some(Errors.TaosError(Low16(code), errStr));
      }

      var numFields := FieldCount(native, result);
      if numFields == 0 {
        affectedRows := AffectedRows(native, result) as int;
        insertId := 0;
      }
      native := Free(native, csqlstr);
      return numFields as int, None;
    }

    /** taosFetchBlock: fetch the next block of the current result and
        rewind the in-block cursor. `rows` is what libtaos reports. */
    method TaosFetchBlock(rows: int32) returns (n: nat, err: Option<Errors.TaosError>)
      requires Valid()
      modifies this`blockOffset, this`blockSize
      ensures Valid()
      ensures var f := ConnSpec.FetchBlock(old(World()), rows);
        World() == f.world && n == f.rows && err == f.err
    {
      blockOffset := 0;
      blockSize := ToUint(Native.FetchBlock(native, result, rows));
      return blockSize, None;
    }

    /** taos_close */
    method TaosClose()
      requires Valid()
      modifies this`taos, this`native
      ensures Valid()
      ensures World() == ConnSpec.Close(old(World()))
      ensures native == Native.Close(old(native), old(taos))
    {
      native := Native.Close(native, taos);
      taos := Nil;
    }

    /** taos_error: release the result of a failed statement. */
    method TaosError()
      requires Valid()
      modifies this`result, this`native
      ensures Valid()
      ensures World() == ConnSpec.FreeResult(old(World()))
      ensures native == Native.FreeResult(old(native), old(result))
    {
      native := Native.FreeResult(native, result);
      result := Nil;
    }

    /** free_result: release the result once a statement is done with. */
    method FreeResult()
      requires Valid()
      modifies this`result, this`native
      ensures Valid()
      ensures World() == ConnSpec.FreeResult(old(World()))
      ensures native == Native.FreeResult(old(native), old(result))
    {
      native := Native.FreeResult(native, result);
      result := Nil;
    }
  }
}
