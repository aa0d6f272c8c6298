/** The bookkeeping of one taosConn as a state machine over values: the
    receiver's fields together with the native library's handle counter and
    the sets of handles freed and closed. Each function is one method of the
    binding; the class in TaosSqlCgo is proved to move between exactly
    these states. */
module ConnSpec {
  import opened Conversions
  import opened Native
  import Errors

  /** The taosConn fields the binding reads and writes. */
  datatype Conn = Conn(
    taos: Handle,
    result: Handle,
    affectedRows: int,
    insertId: int,
    blockOffset: int,
    blockSize: nat)

  /** A connection together with what libtaos knows: the next handle it
      will hand out, and the handles freed or closed so far. */
  datatype World = World(conn: Conn, next: Handle, freed: set<Handle>, closed: set<Handle>)

  /** Only handed-out handles are released, and the fields hold only NULL
      or live handles. */
  ghost predicate Inv(w: World)
  {
    Nil < w.next
    && (forall h :: h in w.freed ==> Nil < h < w.next)
    && (forall h :: h in w.closed ==> Nil < h < w.next)
    && (w.conn.result == Nil || (w.conn.result < w.next && w.conn.result !in w.freed))
    && (w.conn.taos == Nil || (w.conn.taos < w.next && w.conn.taos !in w.closed))
  }

  /** The arguments taosConnect hands to taos_connect. */
  function ConnectArgs(ip: string, user: string, pass: string, db: string, port: int): (c: ConnectCall)
    ensures c.host == None <==> |ip| == 0
    ensures c.host.Some? ==> c.host.value == CRead(ip)
    ensures |ip| == 0 ==> c.port == 0
    ensures |ip| != 0 ==> c.port < TWO_16 && (port - c.port) % TWO_16 == 0
    ensures c.user == CRead(user) && c.pass == CRead(pass) && c.db == CRead(db)
    // a string without NUL characters reaches libtaos whole
    ensures '\0' !in user ==> c.user == user
    ensures '\0' !in pass ==> c.pass == pass
    ensures '\0' !in db ==> c.db == db
    ensures |ip| != 0 && '\0' !in ip ==> c.host == Some(ip)
  {
    if |ip| == 0 then ConnectCall(None, CRead(user), CRead(pass), CRead(db), 0)
    else ConnectCall(Some(CRead(ip)), CRead(user), CRead(pass), CRead(db), ToUShort(port))
  }

  datatype ConnectOutcome = ConnectOutcome(world: World, taos: Handle, err: Option<Errors.TaosError>)

  /** taosConnect, where `ok` says whether taos_connect returned a handle. */
  function Connect(w: World, ok: bool): (r: ConnectOutcome)
    requires Inv(w)
    ensures Inv(r.world)
    ensures r.world.conn == w.conn && r.world.freed == w.freed && r.world.closed == w.closed
    ensures r.err == None <==> r.taos != Nil
    ensures r.err != None ==> r.err == Some(Errors.InvalidConnection)
    ensures ok <==> r.taos != Nil
    ensures r.taos != Nil ==> r.taos !in w.closed && r.taos !in w.freed && r.taos < r.world.next
    // a new handle is one libtaos never handed out before
    ensures r.world.next == w.next + (if ok then 1 else 0)
    ensures r.taos != Nil ==> r.taos == w.next
  {
    var h := if ok then w.next else Nil;
    var w' := w.(next := if ok then w.next + 1 else w.next);
    if h == Nil then ConnectOutcome(w', Nil, Some(Errors.InvalidConnection))
    else ConnectOutcome(w', h, None)
  }

  datatype QueryOutcome = QueryOutcome(world: World, fields: int, err: Option<Errors.TaosError>)

  /** taosQuery: release the previous result, store the new one, and split
      on the native status. */
  function Query(w: World, reply: QueryReply): (r: QueryOutcome)
    requires Inv(w)
    ensures Inv(r.world)
    // the previous result is released, and for the first time
    ensures w.conn.result != Nil ==> w.conn.result !in w.freed && w.conn.result in r.world.freed
    // nothing but the previous and the new result is released
    ensures w.freed <= r.world.freed <= w.freed + {w.conn.result, w.next}
    // a new result handle is one libtaos never handed out before
    ensures r.world.next == w.next + (if reply.isNull then 0 else 1)
    ensures r.err.Some? <==> reply.status != 0
    ensures reply.status != 0 ==>
      && r.fields == 0
      && r.err.value.code == Low16(reply.status)
      && r.err.value.errStr == CRead(reply.errStr)
      && r.world.conn.result == Nil
      && (!reply.isNull ==> w.next !in w.freed && w.next in r.world.freed)
    ensures reply.status == 0 ==>
      && r.fields == reply.fieldCount as int
      && r.world.conn.result == (if reply.isNull then Nil else w.next)
      && w.next !in r.world.freed
    ensures reply.status == 0 && reply.fieldCount == 0 ==>
      r.world.conn.affectedRows == reply.affectedRows as int && r.world.conn.insertId == 0
    ensures reply.status != 0 || reply.fieldCount != 0 ==>
      r.world.conn.affectedRows == w.conn.affectedRows && r.world.conn.insertId == w.conn.insertId
    ensures r.world.conn.taos == w.conn.taos && r.world.closed == w.closed
    ensures r.world.conn.blockOffset == w.conn.blockOffset && r.world.conn.blockSize == w.conn.blockSize
  {
    var released := Release(w.freed, w.conn.result);
    var h := if reply.isNull then Nil else w.next;
    var next := if reply.isNull then w.next else w.next + 1;
    if reply.status != 0 then
      var e := Errors.TaosError(Low16(reply.status), CRead(reply.errStr));
      QueryOutcome(World(w.conn.(result := Nil), next, Release(released, h), w.closed), 0, Some(e))
    else
      var c := w.conn.(result := h);
      var c' := if reply.fieldCount == 0 then c.(affectedRows := reply.affectedRows as int, insertId := 0) else c;
      QueryOutcome(World(c', next, released, w.closed), reply.fieldCount as int, None)
  }

  /** The native call log after taosQuery: the calls before it, then
      taos_free_result of the previous result (if any), taos_query, and
      taos_free_result of the new result if the statement failed. */
  function QueryCalls(before: seq<Call>, w: World, taos: Handle, sql: string, reply: QueryReply): (calls: seq<Call>)
    ensures var h := if reply.isNull then Nil else w.next;
      var k := |before| + (if w.conn.result != Nil then 1 else 0);
      && |calls| == k + 1 + (if reply.status != 0 then 1 else 0)
      && calls[..|before|] == before
      && (w.conn.result != Nil ==> calls[|before|] == CallFreeResult(w.conn.result))
      && calls[k] == CallQuery(taos, CRead(sql), h)
      && (reply.status != 0 ==> calls[k + 1] == CallFreeResult(h))
  {
    var h := if reply.isNull then Nil else w.next;
    var released := if w.conn.result != Nil then before + [CallFreeResult(w.conn.result)] else before;
    var queried := released + [CallQuery(taos, CRead(sql), h)];
    if reply.status != 0 then queried + [CallFreeResult(h)] else queried
  }

  datatype FetchOutcome = FetchOutcome(world: World, rows: nat, err: Option<Errors.TaosError>)

  /** taosFetchBlock, where `rows` is what taos_fetch_block returned. */
  function FetchBlock(w: World, rows: int32): (r: FetchOutcome)
    requires Inv(w)
    ensures Inv(r.world)
    ensures r.err == None
    ensures r.world.conn.blockOffset == 0
    ensures r.rows == r.world.conn.blockSize && r.rows < TWO_64
    ensures rows >= 0 ==> r.rows == rows as int
    ensures rows < 0 ==> r.rows == rows as int + TWO_64
    ensures r.world == w.(conn := w.conn.(blockOffset := 0, blockSize := r.rows))
  {
    var size := ToUint(rows);
    FetchOutcome(w.(conn := w.conn.(blockOffset := 0, blockSize := size)), size, None)
  }

  /** taos_close */
  function Close(w: World): (r: World)
    requires Inv(w)
    ensures Inv(r)
    ensures r.conn.taos == Nil
    ensures w.conn.taos != Nil ==> w.conn.taos !in w.closed && w.conn.taos in r.closed
    ensures r.conn == w.conn.(taos := Nil) && r.freed == w.freed && r.next == w.next
    ensures w.closed <= r.closed <= w.closed + {w.conn.taos}
  {
    World(w.conn.(taos := Nil), w.next, w.freed, Release(w.closed, w.conn.taos))
  }

  /** taos_error and free_result, which do the same thing. */
  function FreeResult(w: World): (r: World)
    requires Inv(w)
    ensures Inv(r)
    ensures r.conn.result == Nil
    ensures w.conn.result != Nil ==> w.conn.result !in w.freed && w.conn.result in r.freed
    ensures r.conn == w.conn.(result := Nil) && r.closed == w.closed && r.next == w.next
    ensures w.freed <= r.freed <= w.freed + {w.conn.result}
  {
    World(w.conn.(result := Nil), w.next, Release(w.freed, w.conn.result), w.closed)
  }

  /** A failed statement whose native status has zero low 16 bits still
      fails, with code 0: the error is chosen on the whole status, the mask
      is applied afterwards. */
  lemma FailureWithMaskedZeroCode(w: World, reply: QueryReply)
    requires Inv(w) && reply.status != 0 && reply.status as int % TWO_16 == 0
    ensures Query(w, reply).err == Some(Errors.TaosError(0, CRead(reply.errStr)))
  {
  }

  /** Freeing the result a second time changes nothing and releases
      nothing twice. */
  lemma FreeResultTwice(w: World)
    requires Inv(w)
    ensures FreeResult(FreeResult(w)) == FreeResult(w)
  {
  }

  /** Closing a second time changes nothing. */
  lemma CloseTwice(w: World)
    requires Inv(w)
    ensures Close(Close(w)) == Close(w)
  {
  }

  /** One call of a binding method, with the oracle's answer. */
  datatype Op =
    | OpConnect(ok: bool)
    | OpQuery(reply: QueryReply)
    | OpFetchBlock(rows: int32)
    | OpClose
    | OpError
    | OpFreeResult

  function Step(w: World, op: Op): (r: World)
    requires Inv(w)
    ensures Inv(r)
    ensures w.freed <= r.freed && w.closed <= r.closed && w.next <= r.next
  {
    match op
    case OpConnect(ok) => Connect(w, ok).world
    case OpQuery(reply) => Query(w, reply).world
    case OpFetchBlock(rows) => FetchBlock(w, rows).world
    case OpClose => Close(w)
    case OpError => FreeResult(w)
    case OpFreeResult => FreeResult(w)
  }

  /** Any sequence of calls on one connection. */
  function Run(w: World, ops: seq<Op>): (r: World)
    requires Inv(w)
    ensures Inv(r)
    ensures w.freed <= r.freed && w.closed <= r.closed && w.next <= r.next
    decreases |ops|
  {
    if ops == [] then w else Run(Step(w, ops[0]), ops[1..])
  }

  /** Over any sequence of calls, a result released earlier is never stored
      again, so it is never handed to taos_free_result a second time. */
  lemma {:induction false} RunNeverReusesFreed(w: World, ops: seq<Op>, h: Handle)
    requires Inv(w) && h in w.freed
    ensures h in Run(w, ops).freed && Run(w, ops).conn.result != h
    decreases |ops|
  {
    if ops != [] {
      var w' := Step(w, ops[0]);
      assert h in w'.freed;
      RunNeverReusesFreed(w', ops[1..], h);
    }
  }
}
