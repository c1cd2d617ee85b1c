/**
 * The values that travel in messages, and what they look like on the wire.
 * `PutX(v, k)` prints `v` in front of `k`; `GetX(b)` parses a value off the front of `b`.
 * Each printer promises that its parser undoes it within a frame of legal size.
 */
module Wire {
  import opened Bytes

  const MAX_FRAME := 16 * 0x10_0000
  const MAX_STRING := 0xFFFF

  type u16 = v: int | 0 <= v < 0x1_0000
  type u32 = v: int | 0 <= v < 0x1_0000_0000
  type i32 = v: int | -0x8000_0000 <= v < 0x8000_0000

  /** What can be wrong with a message, or with bytes read back. */
  datatype Fault =
    | Eof | UnexpectedEof | LimitExceeded | UnknownType | EmptyFrame | FrameTooLarge | StringTooLong
    | BadMagic | BadVersion | EmptySnapshot | SnapshotTooLarge | NotFound | WriteFailed

  datatype Outcome<+T> = Ok(value: T) | Err(error: Fault) {
    predicate IsFailure() { Err? }

    function PropagateFailure<U>(): Outcome<U>
      requires Err?
    {
      Err(error)
    }

    function Extract(): T
      requires Ok?
    {
      value
    }
  }

  /** A parsed value, or what was wrong; and the input after it. */
  datatype Parsed<+T> = Got(value: T, rest: Bytes) | Failed(error: Fault, rest: Bytes) {
    predicate IsFailure() { Failed? }

    function PropagateFailure<U>(): Parsed<U>
      requires Failed?
    {
      Failed(error, rest)
    }

    function Extract(): (T, Bytes)
      requires Got?
    {
      (value, rest)
    }
  }

  // --- Integers, big endian --------------------------------------------------

  /** A full read: a short one uses up the input, and tells an empty input from a partial one. */
  function Take(n: nat, b: Bytes): Parsed<Bytes>
  {
    if n <= |b| then Got(b[..n], b[n..]) else Failed(ShortRead(b), [])
  }

  function ShortRead(b: Bytes): Fault
  {
    if b == [] then Eof else UnexpectedEof
  }

  lemma TakeBack(h: Bytes, k: Bytes)
    ensures Take(|h|, h + k) == Got(h, k)
  {
    assert (h + k)[..|h|] == h && (h + k)[|h|..] == k;
  }

  function GetU8(b: Bytes): Parsed<byte>
  {
    var (h, rest) :- Take(1, b);
    Got(h[0], rest)
  }

  function PutU8(v: byte, k: Bytes): (r: Bytes)
    ensures GetU8(r) == Got(v, k) && |r| == |k| + 1
  {
    TakeBack([v], k);
    [v] + k
  }

  function U16Bytes(v: u16): (h: Bytes)
    ensures |h| == 2 && U16Of(h) == v
  {
    [v / 0x100, v % 0x100]
  }

  function U16Of(h: Bytes): u16
    requires |h| == 2
  {
    var a: int, b: int := h[0], h[1];
    0x100 * a + b
  }

  function GetU16(b: Bytes): Parsed<u16>
  {
    var (h, rest) :- Take(2, b);
    Got(U16Of(h), rest)
  }

  function PutU16(v: u16, k: Bytes): (r: Bytes)
    ensures GetU16(r) == Got(v, k) && |r| == |k| + 2
  {
    TakeBack(U16Bytes(v), k);
    U16Bytes(v) + k
  }

  function U32Bytes(v: u32): (h: Bytes)
    ensures |h| == 4 && U32Of(h) == v
  {
    var hi, lo := U16Bytes(v / 0x1_0000), U16Bytes(v % 0x1_0000);
    TakeBack(hi, lo);
    hi + lo
  }

  function U32Of(h: Bytes): u32
    requires |h| == 4
  {
    0x1_0000 * U16Of(h[..2]) + U16Of(h[2..])
  }

  function GetU32(b: Bytes): Parsed<u32>
  {
    var (h, rest) :- Take(4, b);
    Got(U32Of(h), rest)
  }

  function PutU32(v: u32, k: Bytes): (r: Bytes)
    ensures GetU32(r) == Got(v, k) && |r| == |k| + 4
  {
    TakeBack(U32Bytes(v), k);
    U32Bytes(v) + k
  }

  /** Two's complement. */
  function Unsigned(v: i32): u32
  {
    if v < 0 then v + 0x1_0000_0000 else v
  }

  function Signed(v: u32): i32
  {
    if v >= 0x8000_0000 then v - 0x1_0000_0000 else v
  }

  function GetI32(b: Bytes): Parsed<i32>
  {
    var (v, rest) :- GetU32(b);
    Got(Signed(v), rest)
  }

  function PutI32(v: i32, k: Bytes): (r: Bytes)
    ensures GetI32(r) == Got(v, k) && |r| == |k| + 4
  {
    PutU32(Unsigned(v), k)
  }

  /** Any byte but zero reads as true. */
  function GetBool(b: Bytes): Parsed<bool>
  {
    var (v, rest) :- GetU8(b);
    Got(v != 0, rest)
  }

  function PutBool(v: bool, k: Bytes): (r: Bytes)
    ensures GetBool(r) == Got(v, k) && |r| == |k| + 1
  {
    PutU8(if v then 1 else 0, k)
  }

  // --- Strings and byte strings ----------------------------------------------

  function GetStr(b: Bytes): Parsed<Bytes>
  {
    var (n, rest) :- GetU16(b);
    Take(n, rest)
  }

  function PutStr(s: Bytes, k: Bytes): (r: Bytes)
    requires |s| <= MAX_STRING
    ensures GetStr(r) == Got(s, k) && |r| == |k| + |s| + 2
  {
    TakeBack(s, k);
    PutU16(|s|, s + k)
  }

  /** A length or an element count; the writer lets it wrap, the reader bounds it. */
  function GetCount(b: Bytes): Parsed<u32>
  {
    var (n, rest) :- GetU32(b);
    if n > MAX_FRAME then Failed(LimitExceeded, rest) else Got(n, rest)
  }

  function PutCount(n: nat, k: Bytes): (r: Bytes)
    ensures n <= MAX_FRAME ==> GetCount(r) == Got(n, k)
    ensures |r| == |k| + 4
  {
    PutU32(n % 0x1_0000_0000, k)
  }

  function GetBytes(b: Bytes): Parsed<Bytes>
  {
    var (n, rest) :- GetCount(b);
    Take(n, rest)
  }

  function PutBytes(v: Bytes, k: Bytes): (r: Bytes)
    ensures |r| <= MAX_FRAME ==> GetBytes(r) == Got(v, k)
    ensures |r| == |k| + |v| + 4
  {
    TakeBack(v, k);
    PutCount(|v|, v + k)
  }

  // --- Lists -----------------------------------------------------------------

  predicate AllShort(v: seq<Bytes>)
  {
    forall s <- v :: |s| <= MAX_STRING
  }

  function GetStrList(n: nat, b: Bytes): Parsed<seq<Bytes>>
  {
    if n == 0 then Got([], b)
    else
      var (s, b1) :- GetStr(b);
      var (tail, b2) :- GetStrList(n - 1, b1);
      Got([s] + tail, b2)
  }

  function PutStrList(v: seq<Bytes>, k: Bytes): (r: Bytes)
    requires AllShort(v)
    ensures GetStrList(|v|, r) == Got(v, k) && |r| >= |k| + |v|
  {
    if v == [] then k
    else
      assert v == [v[0]] + v[1..];
      PutStr(v[0], PutStrList(v[1..], k))
  }

  function GetStrs(b: Bytes): Parsed<seq<Bytes>>
  {
    var (n, b1) :- GetCount(b);
    GetStrList(n, b1)
  }

  function PutStrs(v: seq<Bytes>, k: Bytes): (r: Bytes)
    requires AllShort(v)
    ensures |r| <= MAX_FRAME ==> GetStrs(r) == Got(v, k)
    ensures |r| >= |k| + 4
  {
    PutCount(|v|, PutStrList(v, k))
  }

  datatype SessionClient = SessionClient(clientId: Bytes, readOnly: bool, version: Bytes)

  predicate ClientShort(c: SessionClient)
  {
    |c.clientId| <= MAX_STRING && |c.version| <= MAX_STRING
  }

  predicate ClientsShort(v: seq<SessionClient>)
  {
    forall c <- v :: ClientShort(c)
  }

  function GetClient(b: Bytes): Parsed<SessionClient>
  {
    var (clientId, b1) :- GetStr(b);
    var (readOnly, b2) :- GetBool(b1);
    var (version, b3) :- GetStr(b2);
    Got(SessionClient(clientId, readOnly, version), b3)
  }

  function PutClient(c: SessionClient, k: Bytes): (r: Bytes)
    requires ClientShort(c)
    ensures GetClient(r) == Got(c, k) && |r| > |k|
  {
    PutStr(c.clientId, PutBool(c.readOnly, PutStr(c.version, k)))
  }

  function GetClientList(n: nat, b: Bytes): Parsed<seq<SessionClient>>
  {
    if n == 0 then Got([], b)
    else
      var (c, b1) :- GetClient(b);
      var (tail, b2) :- GetClientList(n - 1, b1);
      Got([c] + tail, b2)
  }

  function PutClientList(v: seq<SessionClient>, k: Bytes): (r: Bytes)
    requires ClientsShort(v)
    ensures GetClientList(|v|, r) == Got(v, k) && |r| >= |k| + |v|
  {
    if v == [] then k
    else
      assert v == [v[0]] + v[1..];
      PutClient(v[0], PutClientList(v[1..], k))
  }

  function GetClients(b: Bytes): Parsed<seq<SessionClient>>
  {
    var (n, b1) :- GetCount(b);
    GetClientList(n, b1)
  }

  function PutClients(v: seq<SessionClient>, k: Bytes): (r: Bytes)
    requires ClientsShort(v)
    ensures |r| <= MAX_FRAME ==> GetClients(r) == Got(v, k)
    ensures |r| >= |k| + 4
  {
    PutCount(|v|, PutClientList(v, k))
  }

  datatype SessionRow = SessionRow(
    name: Bytes, state: Bytes, cols: u16, rows: u16, pid: u32, createdAt: u32, savedAt: u32,
    cwd: Bytes, clients: seq<SessionClient>)

  predicate RowShort(s: SessionRow)
  {
    |s.name| <= MAX_STRING && |s.state| <= MAX_STRING && |s.cwd| <= MAX_STRING && ClientsShort(s.clients)
  }

  predicate RowsShort(v: seq<SessionRow>)
  {
    forall s <- v :: RowShort(s)
  }

  function GetRow(b: Bytes): Parsed<SessionRow>
  {
    var (name, b1) :- GetStr(b);
    var (state, b2) :- GetStr(b1);
    var (cols, b3) :- GetU16(b2);
    var (rows, b4) :- GetU16(b3);
    var (pid, b5) :- GetU32(b4);
    var (createdAt, b6) :- GetU32(b5);
    var (savedAt, b7) :- GetU32(b6);
    var (cwd, b8) :- GetStr(b7);
    var (clients, b9) :- GetClients(b8);
    Got(SessionRow(name, state, cols, rows, pid, createdAt, savedAt, cwd, clients), b9)
  }

  function PutRow(s: SessionRow, k: Bytes): (r: Bytes)
    requires RowShort(s)
    ensures |r| <= MAX_FRAME ==> GetRow(r) == Got(s, k)
    ensures |r| > |k|
  {
    PutStr(s.name, PutStr(s.state, PutU16(s.cols, PutU16(s.rows, PutU32(s.pid, PutU32(s.createdAt,
      PutU32(s.savedAt, PutStr(s.cwd, PutClients(s.clients, k)))))))))
  }

  function GetRowList(n: nat, b: Bytes): Parsed<seq<SessionRow>>
  {
    if n == 0 then Got([], b)
    else
      var (s, b1) :- GetRow(b);
      var (tail, b2) :- GetRowList(n - 1, b1);
      Got([s] + tail, b2)
  }

  function PutRowList(v: seq<SessionRow>, k: Bytes): (r: Bytes)
    requires RowsShort(v)
    ensures |r| <= MAX_FRAME ==> GetRowList(|v|, r) == Got(v, k)
    ensures |r| >= |k| + |v|
  {
    if v == [] then k
    else
      assert v == [v[0]] + v[1..];
      PutRow(v[0], PutRowList(v[1..], k))
  }

  function GetRows(b: Bytes): Parsed<seq<SessionRow>>
  {
    var (n, b1) :- GetCount(b);
    GetRowList(n, b1)
  }

  function PutRows(v: seq<SessionRow>, k: Bytes): (r: Bytes)
    requires RowsShort(v)
    ensures |r| <= MAX_FRAME ==> GetRows(r) == Got(v, k)
    ensures |r| >= |k| + 4
  {
    PutCount(|v|, PutRowList(v, k))
  }
}
