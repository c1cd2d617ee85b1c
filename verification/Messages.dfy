/**
 * The 24 message types, the frames they travel in, and the frame reader.
 */
module Messages {
  import opened Bytes
  import opened Wire

  datatype DaemonInfo = DaemonInfo(
    pid: u32, uptime: u32, socketPath: Bytes, runningCount: u32, deadCount: u32, version: Bytes)

  datatype SessionInfo = SessionInfo(
    name: Bytes, state: Bytes, cols: u16, rows: u16, pid: u32, cwd: Bytes, clients: seq<SessionClient>)

  datatype Message =
    | Attach(name: Bytes, command: seq<Bytes>, env: seq<Bytes>, cwd: Bytes, cols: u16, rows: u16,
             xpixel: u16, ypixel: u16, readOnly: bool, restore: bool, scrollback: u32)
    | Input(data: Bytes)
    | Resize(cols: u16, rows: u16, xpixel: u16, ypixel: u16)
    | Detach
    | List(includeClients: bool)
    | Kill(name: Bytes)
    | Send(name: Bytes, data: Bytes)
    | Dump(name: Bytes, format: byte)
    | Prune
    | SendKey(name: Bytes, key: u32, mods: u32)
    | Create(name: Bytes, command: seq<Bytes>, env: seq<Bytes>, cwd: Bytes, scrollback: u32, force: bool)
    | Status(name: Bytes)
    | Kick(name: Bytes, clientId: Bytes)
    | OK
    | Error(message: Bytes)
    | Output(data: Bytes)
    | Attached(name: Bytes, pid: u32, clientId: Bytes, cols: u16, rows: u16, screenDump: Bytes,
               cursorRow: u32, cursorCol: u32, altScreen: bool, created: bool)
    | Sessions(sessions: seq<SessionRow>)
    | Exited(exitCode: i32)
    | DumpResponse(data: Bytes)
    | PruneResponse(count: u32)
    | ClientsChanged(size: u16, cols: u16, rows: u16)
    | StatusResponse(daemon: DaemonInfo, session: Option<SessionInfo>)
    | Created(name: Bytes, pid: u32)

  function Tag(m: Message): byte
  {
    match m
    case Attach(_, _, _, _, _, _, _, _, _, _, _) => 0x01
    case Input(_) => 0x02
    case Resize(_, _, _, _) => 0x03
    case Detach => 0x04
    case List(_) => 0x05
    case Kill(_) => 0x06
    case Send(_, _) => 0x07
    case Dump(_, _) => 0x08
    case Prune => 0x09
    case SendKey(_, _, _) => 0x0A
    case Create(_, _, _, _, _, _) => 0x0B
    case Status(_) => 0x0C
    case Kick(_, _) => 0x0D
    case OK => 0x80
    case Error(_) => 0x81
    case Output(_) => 0x82
    case Attached(_, _, _, _, _, _, _, _, _, _) => 0x83
    case Sessions(_) => 0x84
    case Exited(_) => 0x85
    case DumpResponse(_) => 0x86
    case PruneResponse(_) => 0x87
    case ClientsChanged(_, _, _) => 0x88
    case StatusResponse(_, _) => 0x89
    case Created(_, _) => 0x8A
  }

  predicate Short(s: Bytes)
  {
    |s| <= MAX_STRING
  }

  predicate InfoShort(s: SessionInfo)
  {
    Short(s.name) && Short(s.state) && Short(s.cwd) && ClientsShort(s.clients)
  }

  /** Every string of the message fits its 16-bit length; otherwise encoding fails. */
  predicate Encodable(m: Message)
  {
    match m
    case Attach(name, command, env, cwd, _, _, _, _, _, _, _) =>
      Short(name) && AllShort(command) && AllShort(env) && Short(cwd)
    case Create(name, command, env, cwd, _, _) => Short(name) && AllShort(command) && AllShort(env) && Short(cwd)
    case Kill(name) => Short(name)
    case Send(name, _) => Short(name)
    case Dump(name, _) => Short(name)
    case SendKey(name, _, _) => Short(name)
    case Status(name) => Short(name)
    case Kick(name, clientId) => Short(name) && Short(clientId)
    case Error(message) => Short(message)
    case Attached(name, _, clientId, _, _, _, _, _, _, _) => Short(name) && Short(clientId)
    case Sessions(sessions) => RowsShort(sessions)
    case StatusResponse(daemon, session) =>
      Short(daemon.socketPath) && Short(daemon.version) && (session.Some? ==> InfoShort(session.value))
    case Created(name, _) => Short(name)
    case _ => true
  }

  // --- Records that have many fields -----------------------------------------

  function GetAttach(b: Bytes): Parsed<Message>
  {
    var (name, b1) :- GetStr(b);
    var (command, b2) :- GetStrs(b1);
    var (env, b3) :- GetStrs(b2);
    var (cwd, b4) :- GetStr(b3);
    var (cols, b5) :- GetU16(b4);
    var (rows, b6) :- GetU16(b5);
    var (xpixel, b7) :- GetU16(b6);
    var (ypixel, b8) :- GetU16(b7);
    var (readOnly, b9) :- GetBool(b8);
    var (restore, b10) :- GetBool(b9);
    var (scrollback, b11) :- GetU32(b10);
    Got(Attach(name, command, env, cwd, cols, rows, xpixel, ypixel, readOnly, restore, scrollback), b11)
  }

  function PutAttach(m: Message, k: Bytes): (r: Bytes)
    requires m.Attach? && Encodable(m)
    ensures |r| <= MAX_FRAME ==> GetAttach(r) == Got(m, k)
    ensures |r| >= |k|
  {
    PutStr(m.name, PutStrs(m.command, PutStrs(m.env, PutStr(m.cwd,
      PutU16(m.cols, PutU16(m.rows, PutU16(m.xpixel, PutU16(m.ypixel,
      PutBool(m.readOnly, PutBool(m.restore, PutU32(m.scrollback, k)))))))))))
  }

  function GetCreate(b: Bytes): Parsed<Message>
  {
    var (name, b1) :- GetStr(b);
    var (command, b2) :- GetStrs(b1);
    var (env, b3) :- GetStrs(b2);
    var (cwd, b4) :- GetStr(b3);
    var (scrollback, b5) :- GetU32(b4);
    var (force, b6) :- GetBool(b5);
    Got(Create(name, command, env, cwd, scrollback, force), b6)
  }

  function PutCreate(m: Message, k: Bytes): (r: Bytes)
    requires m.Create? && Encodable(m)
    ensures |r| <= MAX_FRAME ==> GetCreate(r) == Got(m, k)
    ensures |r| >= |k|
  {
    PutStr(m.name, PutStrs(m.command, PutStrs(m.env, PutStr(m.cwd, PutU32(m.scrollback, PutBool(m.force, k))))))
  }

  function GetAttached(b: Bytes): Parsed<Message>
  {
    var (name, b1) :- GetStr(b);
    var (pid, b2) :- GetU32(b1);
    var (clientId, b3) :- GetStr(b2);
    var (cols, b4) :- GetU16(b3);
    var (rows, b5) :- GetU16(b4);
    var (screenDump, b6) :- GetBytes(b5);
    var (cursorRow, b7) :- GetU32(b6);
    var (cursorCol, b8) :- GetU32(b7);
    var (altScreen, b9) :- GetBool(b8);
    var (created, b10) :- GetBool(b9);
    Got(Attached(name, pid, clientId, cols, rows, screenDump, cursorRow, cursorCol, altScreen, created), b10)
  }

  function PutAttached(m: Message, k: Bytes): (r: Bytes)
    requires m.Attached? && Encodable(m)
    ensures |r| <= MAX_FRAME ==> GetAttached(r) == Got(m, k)
    ensures |r| >= |k|
  {
    PutStr(m.name, PutU32(m.pid, PutStr(m.clientId, PutU16(m.cols, PutU16(m.rows, PutBytes(m.screenDump,
      PutU32(m.cursorRow, PutU32(m.cursorCol, PutBool(m.altScreen, PutBool(m.created, k))))))))))
  }

  function GetDaemon(b: Bytes): Parsed<DaemonInfo>
  {
    var (pid, b1) :- GetU32(b);
    var (uptime, b2) :- GetU32(b1);
    var (socketPath, b3) :- GetStr(b2);
    var (runningCount, b4) :- GetU32(b3);
    var (deadCount, b5) :- GetU32(b4);
    var (version, b6) :- GetStr(b5);
    Got(DaemonInfo(pid, uptime, socketPath, runningCount, deadCount, version), b6)
  }

  function PutDaemon(d: DaemonInfo, k: Bytes): (r: Bytes)
    requires Short(d.socketPath) && Short(d.version)
    ensures GetDaemon(r) == Got(d, k)
    ensures |r| >= |k|
  {
    PutU32(d.pid, PutU32(d.uptime, PutStr(d.socketPath, PutU32(d.runningCount, PutU32(d.deadCount,
      PutStr(d.version, k))))))
  }

  function GetInfo(b: Bytes): Parsed<SessionInfo>
  {
    var (name, b1) :- GetStr(b);
    var (state, b2) :- GetStr(b1);
    var (cols, b3) :- GetU16(b2);
    var (rows, b4) :- GetU16(b3);
    var (pid, b5) :- GetU32(b4);
    var (cwd, b6) :- GetStr(b5);
    var (clients, b7) :- GetClients(b6);
    Got(SessionInfo(name, state, cols, rows, pid, cwd, clients), b7)
  }

  function PutInfo(s: SessionInfo, k: Bytes): (r: Bytes)
    requires InfoShort(s)
    ensures |r| <= MAX_FRAME ==> GetInfo(r) == Got(s, k)
    ensures |r| >= |k|
  {
    PutStr(s.name, PutStr(s.state, PutU16(s.cols, PutU16(s.rows, PutU32(s.pid, PutStr(s.cwd,
      PutClients(s.clients, k)))))))
  }

  /** A flag byte, then the record if the flag is not zero. */
  function GetOptionalInfo(b: Bytes): Parsed<Option<SessionInfo>>
  {
    var (flag, b1) :- GetU8(b);
    if flag == 0 then Got(None, b1)
    else
      var (info, b2) :- GetInfo(b1);
      Got(Some(info), b2)
  }

  function PutOptionalInfo(s: Option<SessionInfo>, k: Bytes): (r: Bytes)
    requires s.Some? ==> InfoShort(s.value)
    ensures |r| <= MAX_FRAME ==> GetOptionalInfo(r) == Got(s, k)
    ensures |r| >= |k|
  {
    if s.None? then PutU8(0, k) else PutU8(1, PutInfo(s.value, k))
  }

  function GetResize(b: Bytes): Parsed<Message>
  {
    var (cols, b1) :- GetU16(b);
    var (rows, b2) :- GetU16(b1);
    var (xpixel, b3) :- GetU16(b2);
    var (ypixel, b4) :- GetU16(b3);
    Got(Resize(cols, rows, xpixel, ypixel), b4)
  }

  function PutResize(m: Message, k: Bytes): (r: Bytes)
    requires m.Resize?
    ensures GetResize(r) == Got(m, k) && |r| >= |k|
  {
    PutU16(m.cols, PutU16(m.rows, PutU16(m.xpixel, PutU16(m.ypixel, k))))
  }

  function GetSend(b: Bytes): Parsed<Message>
  {
    var (name, b1) :- GetStr(b);
    var (data, b2) :- GetBytes(b1);
    Got(Send(name, data), b2)
  }

  function PutSend(m: Message, k: Bytes): (r: Bytes)
    requires m.Send? && Encodable(m)
    ensures |r| <= MAX_FRAME ==> GetSend(r) == Got(m, k)
    ensures |r| >= |k|
  {
    PutStr(m.name, PutBytes(m.data, k))
  }

  function GetDump(b: Bytes): Parsed<Message>
  {
    var (name, b1) :- GetStr(b);
    var (format, b2) :- GetU8(b1);
    Got(Dump(name, format), b2)
  }

  function PutDump(m: Message, k: Bytes): (r: Bytes)
    requires m.Dump? && Encodable(m)
    ensures GetDump(r) == Got(m, k) && |r| >= |k|
  {
    PutStr(m.name, PutU8(m.format, k))
  }

  function GetSendKey(b: Bytes): Parsed<Message>
  {
    var (name, b1) :- GetStr(b);
    var (key, b2) :- GetU32(b1);
    var (mods, b3) :- GetU32(b2);
    Got(SendKey(name, key, mods), b3)
  }

  function PutSendKey(m: Message, k: Bytes): (r: Bytes)
    requires m.SendKey? && Encodable(m)
    ensures GetSendKey(r) == Got(m, k) && |r| >= |k|
  {
    PutStr(m.name, PutU32(m.key, PutU32(m.mods, k)))
  }

  function GetKick(b: Bytes): Parsed<Message>
  {
    var (name, b1) :- GetStr(b);
    var (clientId, b2) :- GetStr(b1);
    Got(Kick(name, clientId), b2)
  }

  function PutKick(m: Message, k: Bytes): (r: Bytes)
    requires m.Kick? && Encodable(m)
    ensures GetKick(r) == Got(m, k) && |r| >= |k|
  {
    PutStr(m.name, PutStr(m.clientId, k))
  }

  function GetClientsChanged(b: Bytes): Parsed<Message>
  {
    var (size, b1) :- GetU16(b);
    var (cols, b2) :- GetU16(b1);
    var (rows, b3) :- GetU16(b2);
    Got(ClientsChanged(size, cols, rows), b3)
  }

  function PutClientsChanged(m: Message, k: Bytes): (r: Bytes)
    requires m.ClientsChanged?
    ensures GetClientsChanged(r) == Got(m, k) && |r| >= |k|
  {
    PutU16(m.size, PutU16(m.cols, PutU16(m.rows, k)))
  }

  function GetCreated(b: Bytes): Parsed<Message>
  {
    var (name, b1) :- GetStr(b);
    var (pid, b2) :- GetU32(b1);
    Got(Created(name, pid), b2)
  }

  function PutCreated(m: Message, k: Bytes): (r: Bytes)
    requires m.Created? && Encodable(m)
    ensures GetCreated(r) == Got(m, k) && |r| >= |k|
  {
    PutStr(m.name, PutU32(m.pid, k))
  }

  function GetStatusResponse(b: Bytes): Parsed<Message>
  {
    var (daemon, b1) :- GetDaemon(b);
    var (session, b2) :- GetOptionalInfo(b1);
    Got(StatusResponse(daemon, session), b2)
  }

  function PutStatusResponse(m: Message, k: Bytes): (r: Bytes)
    requires m.StatusResponse? && Encodable(m)
    ensures |r| <= MAX_FRAME ==> GetStatusResponse(r) == Got(m, k)
    ensures |r| >= |k|
  {
    PutDaemon(m.daemon, PutOptionalInfo(m.session, k))
  }

  // --- All types -------------------------------------------------------------

  /** The payload after the tag. */
  function PutBody(m: Message, k: Bytes): (r: Bytes)
    requires Encodable(m)
    ensures |r| >= |k|
  {
    match m
    case Attach(_, _, _, _, _, _, _, _, _, _, _) => PutAttach(m, k)
    case Input(data) => PutBytes(data, k)
    case Resize(_, _, _, _) => PutResize(m, k)
    case Detach => k
    case List(includeClients) => PutBool(includeClients, k)
    case Kill(name) => PutStr(name, k)
    case Send(_, _) => PutSend(m, k)
    case Dump(_, _) => PutDump(m, k)
    case Prune => k
    case SendKey(_, _, _) => PutSendKey(m, k)
    case Create(_, _, _, _, _, _) => PutCreate(m, k)
    case Status(name) => PutStr(name, k)
    case Kick(_, _) => PutKick(m, k)
    case OK => k
    case Error(message) => PutStr(message, k)
    case Output(data) => PutBytes(data, k)
    case Attached(_, _, _, _, _, _, _, _, _, _) => PutAttached(m, k)
    case Sessions(sessions) => PutRows(sessions, k)
    case Exited(exitCode) => PutI32(exitCode, k)
    case DumpResponse(data) => PutBytes(data, k)
    case PruneResponse(count) => PutU32(count, k)
    case ClientsChanged(_, _, _) => PutClientsChanged(m, k)
    case StatusResponse(_, _) => PutStatusResponse(m, k)
    case Created(_, _) => PutCreated(m, k)
  }

  function GetBody(tag: byte, b: Bytes): Parsed<Message>
  {
    match tag
    case 0x01 => GetAttach(b)
    case 0x02 => var (data, b1) :- GetBytes(b); Got(Input(data), b1)
    case 0x03 => GetResize(b)
    case 0x04 => Got(Detach, b)
    case 0x05 => var (includeClients, b1) :- GetBool(b); Got(List(includeClients), b1)
    case 0x06 => var (name, b1) :- GetStr(b); Got(Kill(name), b1)
    case 0x07 => GetSend(b)
    case 0x08 => GetDump(b)
    case 0x09 => Got(Prune, b)
    case 0x0A => GetSendKey(b)
    case 0x0B => GetCreate(b)
    case 0x0C => var (name, b1) :- GetStr(b); Got(Status(name), b1)
    case 0x0D => GetKick(b)
    case 0x80 => Got(OK, b)
    case 0x81 => var (message, b1) :- GetStr(b); Got(Error(message), b1)
    case 0x82 => var (data, b1) :- GetBytes(b); Got(Output(data), b1)
    case 0x83 => GetAttached(b)
    case 0x84 => var (sessions, b1) :- GetRows(b); Got(Sessions(sessions), b1)
    case 0x85 => var (exitCode, b1) :- GetI32(b); Got(Exited(exitCode), b1)
    case 0x86 => var (data, b1) :- GetBytes(b); Got(DumpResponse(data), b1)
    case 0x87 => var (count, b1) :- GetU32(b); Got(PruneResponse(count), b1)
    case 0x88 => GetClientsChanged(b)
    case 0x89 => GetStatusResponse(b)
    case 0x8A => GetCreated(b)
    case _ => Failed(UnknownType, b)
  }

  /** Decoding a payload undoes encoding it, and does not look past it. */
  lemma BodyBack(m: Message, k: Bytes)
    requires Encodable(m) && |PutBody(m, k)| <= MAX_FRAME
    ensures GetBody(Tag(m), PutBody(m, k)) == Got(m, k)
  {
    hide GetU32, GetI32, GetBool, GetStr, GetBytes, GetRows;
    hide PutU32, PutI32, PutBool, PutStr, PutBytes, PutRows;
    hide GetAttach, GetResize, GetSend, GetDump, GetSendKey, GetCreate, GetKick, GetAttached;
    hide PutAttach, PutResize, PutSend, PutDump, PutSendKey, PutCreate, PutKick, PutAttached;
    hide GetClientsChanged, GetStatusResponse, GetCreated;
    hide PutClientsChanged, PutStatusResponse, PutCreated;
  }
}
