/** The foreign side of the binding, as an oracle: the C allocator behind
    `C.CString`/`C.free`, and the handle-based libtaos calls. What libtaos
    answers (a status, a message, counts) is not computed here; it enters
    as a parameter, and the state only records what the binding passed in
    and which handles it released. Each native call is a function from the
    state before the call to the state after it; its precondition is what
    the C side needs to be safe, so a use after free or a double free does
    not verify. */
module Native {
  import opened Conversions

  datatype Option<+T> = None | Some(value: T)

  /** An opaque native pointer (a TAOS* connection or a TAOS_RES* result);
      0 is C's NULL. */
  type Handle = nat
  const Nil: Handle := 0

  /** The address of a C string. */
  type CPtr = nat

  /** What the native accessors (taos_errno, taos_errstr, taos_field_count,
      taos_affected_rows) report for the result of one taos_query call, and
      whether taos_query returned NULL instead of a result handle. `errStr`
      is the message buffer taos_errstr points to; `C.GoString` copies it
      back up to its first NUL. */
  datatype QueryReply = QueryReply(
    isNull: bool,
    status: int32,
    errStr: string,
    fieldCount: int32,
    affectedRows: int32)

  /** The arguments taos_connect received, read through the C strings;
      `host == None` is a NULL host pointer. */
  datatype ConnectCall = ConnectCall(host: Option<string>, user: string, pass: string, db: string, port: nat)

  /** One libtaos call that creates or releases a handle, with the handle
      it returned or released. */
  datatype Call =
    | CallConnect(args: ConnectCall, returned: Handle)
    | CallQuery(taos: Handle, sql: string, returned: Handle)
    | CallFreeResult(res: Handle)
    | CallClose(taos: Handle)

  /** The handles released after taos_free_result or taos_close of `h`:
      NULL is ignored by the native library. */
  function Release(released: set<Handle>, h: Handle): (r: set<Handle>)
    ensures h in r <==> h != Nil || h in released
    ensures r - {h} == released - {h}
  {
    if h == Nil then released else released + {h}
  }

  /** The C heap (the live C strings by address, and the next free address;
      addresses are never reused) and libtaos (the next handle it hands
      out, so none is handed out twice; what its accessors report for each
      result; the handles freed and closed so far; and its handle-creating
      and handle-releasing calls in order). */
  datatype State = State(
    cstrings: map<CPtr, string>,
    nextPtr: CPtr,
    next: Handle,
    replies: map<Handle, QueryReply>,
    freed: set<Handle>,
    closed: set<Handle>,
    calls: seq<Call>)

  /** Every live C string lies below the next free address. */
  ghost predicate HeapValid(n: State)
  {
    forall p :: p in n.cstrings ==> p < n.nextPtr
  }

  /** What C reads through a `char*`: the characters before the first NUL.
      A Go string may hold NUL characters; C sees only the part before the
      first of them. */
  function CRead(s: string): (r: string)
    ensures |r| <= |s| && r == s[..|r|]
    ensures '\0' !in r
    ensures |r| < |s| ==> s[|r|] == '\0'
    ensures '\0' !in s ==> r == s
  {
    if s == [] || s[0] == '\0' then [] else [s[0]] + CRead(s[1..])
  }

  /** C.CString: copy a Go string into freshly allocated C memory; the
      state after the call, and the address. */
  function CString(n: State, s: string): (State, CPtr)
  {
    (n.(cstrings := n.cstrings[n.nextPtr := s], nextPtr := n.nextPtr + 1), n.nextPtr)
  }

  /** C.free: only a live C string may be freed. */
  function Free(n: State, p: CPtr): State
    requires p in n.cstrings
  {
    n.(cstrings := n.cstrings - {p})
  }

  /** Freeing the most recent allocation restores the heap as it was. */
  lemma FreeUndoesAlloc(m: map<CPtr, string>, p: CPtr, s: string)
    requires p !in m
    ensures m[p := s] - {p} == m
  {
    assert (m[p := s] - {p}).Keys == m.Keys;
  }

  /** taos_connect, reading its string arguments through live C strings.
      `ok` is the oracle: whether the server accepted. */
  function Connect(n: State, host: Option<CPtr>, user: CPtr, pass: CPtr, db: CPtr, port: nat, ok: bool): (State, Handle)
    requires host.Some? ==> host.value in n.cstrings
    requires user in n.cstrings && pass in n.cstrings && db in n.cstrings
    requires port < TWO_16
  {
    var h := if ok then n.next else Nil;
    var hostStr := if host.Some? then Some(CRead(n.cstrings[host.value])) else None;
    var call := ConnectCall(hostStr, CRead(n.cstrings[user]), CRead(n.cstrings[pass]), CRead(n.cstrings[db]), port);
    (n.(next := if ok then n.next + 1 else n.next, calls := n.calls + [CallConnect(call, h)]), h)
  }

  /** taos_query. `reply` is the oracle: what the server made of the
      statement. The handle is the next one unless the reply is NULL. */
  function Query(n: State, taos: Handle, sql: CPtr, reply: QueryReply): (State, Handle)
    requires taos == Nil || taos !in n.closed
    requires sql in n.cstrings
  {
    var res := if reply.isNull then Nil else n.next;
    (n.(next := if reply.isNull then n.next else n.next + 1,
        replies := n.replies[res := reply],
        calls := n.calls + [CallQuery(taos, CRead(n.cstrings[sql]), res)]), res)
  }

  /** A result may be inspected only while it is not yet freed. */
  predicate Readable(n: State, res: Handle)
  {
    res in n.replies && (res == Nil || res !in n.freed)
  }

  /** taos_errno */
  function Errno(n: State, res: Handle): int32
    requires Readable(n, res)
  {
    n.replies[res].status
  }

  /** `C.GoString(C.taos_errstr(res))` */
  function Errstr(n: State, res: Handle): string
    requires Readable(n, res)
  {
    CRead(n.replies[res].errStr)
  }

  /** taos_field_count */
  function FieldCount(n: State, res: Handle): int32
    requires Readable(n, res)
  {
    n.replies[res].fieldCount
  }

  /** taos_affected_rows */
  function AffectedRows(n: State, res: Handle): int32
    requires Readable(n, res)
  {
    n.replies[res].affectedRows
  }

  /** taos_fetch_block. `rows` is the oracle: the row count of the block
      the server sent (0 at the end of the data, or for a NULL result). */
  function FetchBlock(n: State, res: Handle, rows: int32): int32
    requires res == Nil || res !in n.freed
  {
    rows
  }

  /** taos_free_result: freeing a result twice does not verify. */
  function FreeResult(n: State, res: Handle): State
    requires res == Nil || res !in n.freed
  {
    n.(freed := Release(n.freed, res), calls := n.calls + [CallFreeResult(res)])
  }

  /** taos_close: closing a connection twice does not verify. */
  function Close(n: State, taos: Handle): State
    requires taos == Nil || taos !in n.closed
  {
    n.(closed := Release(n.closed, taos), calls := n.calls + [CallClose(taos)])
  }
}
