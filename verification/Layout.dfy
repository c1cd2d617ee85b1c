/**
 * The bytes of every message and of the state file, field by field and in order, said
 * without the printers: big endian numbers, strings with a 16-bit length, byte strings
 * and lists with a 32-bit one.
 */
module Layout {
  import opened Bytes
  import opened Wire
  import opened Messages
  import opened Codec
  import opened StateFile

  // --- Fields ----------------------------------------------------------------

  /** `v` in `n` bytes, the most significant first. */
  function Big(n: nat, v: nat): (h: Bytes)
    ensures |h| == n
  {
    if n == 0 then [] else Big(n - 1, v / 0x100) + [v % 0x100]
  }

  /** What each byte of a 16-bit number is worth. */
  lemma BigTwo(v: u16)
    ensures var h := Big(2, v); 0x100 * h[0] as int + h[1] as int == v
  {
    assert Big(1, v / 0x100) == Big(0, v / 0x1_0000) + [v / 0x100];
  }

  lemma {:induction false} BigSplit(n: nat, v: nat)
    ensures Big(n + 2, v) == Big(n, v / 0x1_0000) + Big(2, v % 0x1_0000)
  {
    assert Big(n + 2, v) == Big(n + 1, v / 0x100) + [v % 0x100];
    assert Big(n + 1, v / 0x100) == Big(n, v / 0x100 / 0x100) + [v / 0x100 % 0x100];
    var r := v % 0x1_0000;
    assert Big(1, r / 0x100) == Big(0, r / 0x100 / 0x100) + [r / 0x100 % 0x100];
    assert Big(2, r) == Big(1, r / 0x100) + [r % 0x100];
    Halves(v);
  }

  lemma Halves(v: nat)
    ensures v / 0x100 / 0x100 == v / 0x1_0000
    ensures v % 0x1_0000 / 0x100 == v / 0x100 % 0x100 && v % 0x1_0000 % 0x100 == v % 0x100
  {
  }

  /** What each byte of a 32-bit number is worth. */
  lemma BigFour(v: u32)
    ensures var h := Big(4, v);
            0x100_0000 * h[0] as int + 0x1_0000 * h[1] as int + 0x100 * h[2] as int + h[3] as int == v
  {
    BigSplit(2, v);
    BigTwo(v / 0x1_0000);
    BigTwo(v % 0x1_0000);
  }

  lemma BigEight(v: u64)
    ensures Big(8, v) == Big(4, v / 0x1_0000_0000) + Big(4, v % 0x1_0000_0000)
  {
    var hi, lo := v / 0x1_0000_0000, v % 0x1_0000_0000;
    BigSplit(6, v);
    BigSplit(4, v / 0x1_0000);
    BigSplit(2, lo);
    assert v / 0x1_0000 / 0x1_0000 == hi;
    assert v / 0x1_0000 % 0x1_0000 == lo / 0x1_0000 && lo % 0x1_0000 == v % 0x1_0000;
    assert Big(4, lo) == Big(2, lo / 0x1_0000) + Big(2, lo % 0x1_0000);
    assert (Big(4, hi) + Big(2, lo / 0x1_0000)) + Big(2, lo % 0x1_0000) == Big(4, hi) + Big(4, lo);
  }

  lemma U16IsBig(v: u16)
    ensures U16Bytes(v) == Big(2, v)
  {
    assert Big(1, v / 0x100) == Big(0, v / 0x1_0000) + [v / 0x100];
  }

  lemma U32IsBig(v: u32)
    ensures U32Bytes(v) == Big(4, v)
  {
    U16IsBig(v / 0x1_0000);
    U16IsBig(v % 0x1_0000);
    BigSplit(2, v);
  }

  function Count(n: nat): Bytes
  {
    Big(4, n % 0x1_0000_0000)
  }

  function Text(s: Bytes): Bytes
  {
    Big(2, |s|) + s
  }

  function Blob(b: Bytes): Bytes
  {
    Count(|b|) + b
  }

  function Flag(b: bool): Bytes
  {
    [if b then 1 else 0]
  }

  function TwosComplement(v: i32): nat
  {
    if v < 0 then 0x1_0000_0000 + v else v
  }

  function Texts(v: seq<Bytes>): Bytes
  {
    if v == [] then [] else Text(v[0]) + Texts(v[1..])
  }

  function ClientFields(c: SessionClient): Bytes
  {
    Text(c.clientId) + (Flag(c.readOnly) + Text(c.version))
  }

  function ClientList(v: seq<SessionClient>): Bytes
  {
    if v == [] then [] else ClientFields(v[0]) + ClientList(v[1..])
  }

  function RowFields(s: SessionRow): Bytes
  {
    Text(s.name) + (Text(s.state) + (Big(2, s.cols) + (Big(2, s.rows) + (Big(4, s.pid) + (Big(4, s.createdAt)
      + (Big(4, s.savedAt) + (Text(s.cwd) + (Count(|s.clients|) + ClientList(s.clients)))))))))
  }

  function RowList(v: seq<SessionRow>): Bytes
  {
    if v == [] then [] else RowFields(v[0]) + RowList(v[1..])
  }

  function DaemonFields(d: DaemonInfo): Bytes
  {
    Big(4, d.pid) + (Big(4, d.uptime) + (Text(d.socketPath) + (Big(4, d.runningCount) + (Big(4, d.deadCount)
      + Text(d.version)))))
  }

  function InfoFields(s: SessionInfo): Bytes
  {
    Text(s.name) + (Text(s.state) + (Big(2, s.cols) + (Big(2, s.rows) + (Big(4, s.pid) + (Text(s.cwd)
      + (Count(|s.clients|) + ClientList(s.clients)))))))
  }

  // --- Messages --------------------------------------------------------------

  /** The frame of each message type: its number, then its fields. */
  function Frame(m: Message): Bytes
  {
    match m
    case Attach(name, command, env, cwd, cols, rows, xpixel, ypixel, readOnly, restore, scrollback) =>
      [0x01] + (Text(name) + (Count(|command|) + (Texts(command) + (Count(|env|) + (Texts(env) + (Text(cwd)
        + (Big(2, cols) + (Big(2, rows) + (Big(2, xpixel) + (Big(2, ypixel)
        + (Flag(readOnly) + (Flag(restore) + Big(4, scrollback)))))))))))))
    case Input(data) => [0x02] + Blob(data)
    case Resize(cols, rows, xpixel, ypixel) =>
      [0x03] + (Big(2, cols) + (Big(2, rows) + (Big(2, xpixel) + Big(2, ypixel))))
    case Detach => [0x04]
    case List(includeClients) => [0x05] + Flag(includeClients)
    case Kill(name) => [0x06] + Text(name)
    case Send(name, data) => [0x07] + (Text(name) + Blob(data))
    case Dump(name, format) => [0x08] + (Text(name) + [format])
    case Prune => [0x09]
    case SendKey(name, key, mods) => [0x0A] + (Text(name) + (Big(4, key) + Big(4, mods)))
    case Create(name, command, env, cwd, scrollback, force) =>
      [0x0B] + (Text(name) + (Count(|command|) + (Texts(command) + (Count(|env|) + (Texts(env) + (Text(cwd)
        + (Big(4, scrollback) + Flag(force))))))))
    case Status(name) => [0x0C] + Text(name)
    case Kick(name, clientId) => [0x0D] + (Text(name) + Text(clientId))
    case OK => [0x80]
    case Error(message) => [0x81] + Text(message)
    case Output(data) => [0x82] + Blob(data)
    case Attached(name, pid, clientId, cols, rows, screenDump, cursorRow, cursorCol, altScreen, created) =>
      [0x83] + (Text(name) + (Big(4, pid) + (Text(clientId) + (Big(2, cols) + (Big(2, rows) + (Blob(screenDump)
        + (Big(4, cursorRow) + (Big(4, cursorCol) + (Flag(altScreen) + Flag(created))))))))))
    case Sessions(sessions) => [0x84] + (Count(|sessions|) + RowList(sessions))
    case Exited(exitCode) => [0x85] + Big(4, TwosComplement(exitCode))
    case DumpResponse(data) => [0x86] + Blob(data)
    case PruneResponse(count) => [0x87] + Big(4, count)
    case ClientsChanged(size, cols, rows) => [0x88] + (Big(2, size) + (Big(2, cols) + Big(2, rows)))
    case StatusResponse(daemon, session) =>
      [0x89] + (DaemonFields(daemon) + if session.None? then [0] else [1] + InfoFields(session.value))
    case Created(name, pid) => [0x8A] + (Text(name) + Big(4, pid))
  }

  // --- The printers print this -----------------------------------------------

  lemma Shift(a: Bytes, b: Bytes, k: Bytes)
    ensures a + (b + k) == (a + b) + k
  {
  }

  lemma U16Prints(v: u16, k: Bytes)
    ensures PutU16(v, k) == Big(2, v) + k
  {
    U16IsBig(v);
  }

  lemma U32Prints(v: u32, k: Bytes)
    ensures PutU32(v, k) == Big(4, v) + k
  {
    U32IsBig(v);
  }

  lemma CountPrints(n: nat, k: Bytes)
    ensures PutCount(n, k) == Count(n) + k
  {
    U32IsBig(n % 0x1_0000_0000);
  }

  lemma StrPrints(s: Bytes, k: Bytes)
    requires |s| <= MAX_STRING
    ensures PutStr(s, k) == Text(s) + k
  {
    U16IsBig(|s|);
    assert Big(2, |s|) + (s + k) == (Big(2, |s|) + s) + k;
  }

  lemma BytesPrints(b: Bytes, k: Bytes)
    ensures PutBytes(b, k) == Blob(b) + k
  {
    CountPrints(|b|, b + k);
    assert Count(|b|) + (b + k) == (Count(|b|) + b) + k;
  }

  lemma BoolPrints(b: bool, k: Bytes)
    ensures PutBool(b, k) == Flag(b) + k
  {
  }

  lemma {:induction false} StrListPrints(v: seq<Bytes>, k: Bytes)
    requires AllShort(v)
    ensures PutStrList(v, k) == Texts(v) + k
  {
    if v == [] {
      assert [] + k == k;
    } else {
      hide Text, PutStr, GetStrList, GetStr;
      StrListPrints(v[1..], k);
      StrPrints(v[0], PutStrList(v[1..], k));
      Shift(Text(v[0]), Texts(v[1..]), k);
    }
  }

  lemma StrsPrints(v: seq<Bytes>, k: Bytes)
    requires AllShort(v)
    ensures PutStrs(v, k) == Count(|v|) + (Texts(v) + k)
  {
    StrListPrints(v, k);
    CountPrints(|v|, PutStrList(v, k));
  }

  lemma ClientPrints(c: SessionClient, k: Bytes)
    requires ClientShort(c)
    ensures PutClient(c, k) == ClientFields(c) + k
  {
    StrPrints(c.version, k);
    BoolPrints(c.readOnly, PutStr(c.version, k));
    StrPrints(c.clientId, PutBool(c.readOnly, PutStr(c.version, k)));
    hide Text, Flag;
    Shift(Flag(c.readOnly), Text(c.version), k);
    Shift(Text(c.clientId), Flag(c.readOnly) + Text(c.version), k);
  }

  lemma {:induction false} ClientListPrints(v: seq<SessionClient>, k: Bytes)
    requires ClientsShort(v)
    ensures PutClientList(v, k) == ClientList(v) + k
  {
    if v == [] {
      assert [] + k == k;
    } else {
      ClientListPrints(v[1..], k);
      ClientPrints(v[0], PutClientList(v[1..], k));
      Shift(ClientFields(v[0]), ClientList(v[1..]), k);
    }
  }

  lemma ClientsPrint(v: seq<SessionClient>, k: Bytes)
    requires ClientsShort(v)
    ensures PutClients(v, k) == Count(|v|) + (ClientList(v) + k)
  {
    ClientListPrints(v, k);
    CountPrints(|v|, PutClientList(v, k));
  }

  lemma RowPrints(s: SessionRow, k: Bytes)
    requires RowShort(s)
    ensures PutRow(s, k) == RowFields(s) + k
  {
    hide Big, Text, Count, ClientList, PutStr, PutU16, PutU32, PutClients;
    var k9 := PutClients(s.clients, k);
    ClientsPrint(s.clients, k);
    var k8 := PutStr(s.cwd, k9);
    StrPrints(s.cwd, k9);
    var k7 := PutU32(s.savedAt, k8);
    U32Prints(s.savedAt, k8);
    var k6 := PutU32(s.createdAt, k7);
    U32Prints(s.createdAt, k7);
    var k5 := PutU32(s.pid, k6);
    U32Prints(s.pid, k6);
    var k4 := PutU16(s.rows, k5);
    U16Prints(s.rows, k5);
    var k3 := PutU16(s.cols, k4);
    U16Prints(s.cols, k4);
    var k2 := PutStr(s.state, k3);
    StrPrints(s.state, k3);
    StrPrints(s.name, k2);
    var f9 := Count(|s.clients|) + ClientList(s.clients);
    Shift(Count(|s.clients|), ClientList(s.clients), k);
    var f8 := Text(s.cwd) + f9;
    Shift(Text(s.cwd), f9, k);
    var f7 := Big(4, s.savedAt) + f8;
    Shift(Big(4, s.savedAt), f8, k);
    var f6 := Big(4, s.createdAt) + f7;
    Shift(Big(4, s.createdAt), f7, k);
    var f5 := Big(4, s.pid) + f6;
    Shift(Big(4, s.pid), f6, k);
    var f4 := Big(2, s.rows) + f5;
    Shift(Big(2, s.rows), f5, k);
    var f3 := Big(2, s.cols) + f4;
    Shift(Big(2, s.cols), f4, k);
    var f2 := Text(s.state) + f3;
    Shift(Text(s.state), f3, k);
    Shift(Text(s.name), f2, k);
  }

  lemma {:induction false} RowListPrints(v: seq<SessionRow>, k: Bytes)
    requires RowsShort(v)
    ensures PutRowList(v, k) == RowList(v) + k
  {
    if v == [] {
      assert [] + k == k;
    } else {
      RowListPrints(v[1..], k);
      RowPrints(v[0], PutRowList(v[1..], k));
      hide RowFields, PutRow;
      Shift(RowFields(v[0]), RowList(v[1..]), k);
    }
  }

  lemma RowsPrint(v: seq<SessionRow>, k: Bytes)
    requires RowsShort(v)
    ensures PutRows(v, k) == Count(|v|) + (RowList(v) + k)
  {
    RowListPrints(v, k);
    CountPrints(|v|, PutRowList(v, k));
  }

  lemma DaemonPrints(d: DaemonInfo, k: Bytes)
    requires Short(d.socketPath) && Short(d.version)
    ensures PutDaemon(d, k) == DaemonFields(d) + k
  {
    hide Big, Text, PutStr, PutU32;
    var k6 := PutStr(d.version, k);
    StrPrints(d.version, k);
    var k5 := PutU32(d.deadCount, k6);
    U32Prints(d.deadCount, k6);
    var k4 := PutU32(d.runningCount, k5);
    U32Prints(d.runningCount, k5);
    var k3 := PutStr(d.socketPath, k4);
    StrPrints(d.socketPath, k4);
    var k2 := PutU32(d.uptime, k3);
    U32Prints(d.uptime, k3);
    U32Prints(d.pid, k2);
    var f5 := Big(4, d.deadCount) + Text(d.version);
    Shift(Big(4, d.deadCount), Text(d.version), k);
    var f4 := Big(4, d.runningCount) + f5;
    Shift(Big(4, d.runningCount), f5, k);
    var f3 := Text(d.socketPath) + f4;
    Shift(Text(d.socketPath), f4, k);
    var f2 := Big(4, d.uptime) + f3;
    Shift(Big(4, d.uptime), f3, k);
    Shift(Big(4, d.pid), f2, k);
  }

  lemma InfoPrints(s: SessionInfo)
    requires InfoShort(s)
    ensures PutInfo(s, []) == InfoFields(s)
  {
    hide Big, Text, Count, ClientList, PutStr, PutU16, PutU32, PutClients;
    var k7 := PutClients(s.clients, []);
    ClientsPrint(s.clients, []);
    assert ClientList(s.clients) + [] == ClientList(s.clients);
    var k6 := PutStr(s.cwd, k7);
    StrPrints(s.cwd, k7);
    var k5 := PutU32(s.pid, k6);
    U32Prints(s.pid, k6);
    var k4 := PutU16(s.rows, k5);
    U16Prints(s.rows, k5);
    var k3 := PutU16(s.cols, k4);
    U16Prints(s.cols, k4);
    var k2 := PutStr(s.state, k3);
    StrPrints(s.state, k3);
    StrPrints(s.name, k2);
  }

  // --- The frames ------------------------------------------------------------

  lemma AttachFrame(m: Message)
    requires m.Attach? && Encodable(m)
    ensures [0x01] + PutAttach(m, []) == Frame(m)
  {
    hide Big, Text, Count, Texts, Flag, PutStr, PutStrs, PutU16, PutU32, PutBool, GetAttach;
    var k11 := PutU32(m.scrollback, []);
    U32Prints(m.scrollback, []);
    assert k11 == Big(4, m.scrollback);
    var k10 := PutBool(m.restore, k11);
    BoolPrints(m.restore, k11);
    var k9 := PutBool(m.readOnly, k10);
    BoolPrints(m.readOnly, k10);
    var k8 := PutU16(m.ypixel, k9);
    U16Prints(m.ypixel, k9);
    var k7 := PutU16(m.xpixel, k8);
    U16Prints(m.xpixel, k8);
    var k6 := PutU16(m.rows, k7);
    U16Prints(m.rows, k7);
    var k5 := PutU16(m.cols, k6);
    U16Prints(m.cols, k6);
    var k4 := PutStr(m.cwd, k5);
    StrPrints(m.cwd, k5);
    var k3 := PutStrs(m.env, k4);
    StrsPrints(m.env, k4);
    var k2 := PutStrs(m.command, k3);
    StrsPrints(m.command, k3);
    StrPrints(m.name, k2);
  }

  lemma CreateFrame(m: Message)
    requires m.Create? && Encodable(m)
    ensures [0x0B] + PutCreate(m, []) == Frame(m)
  {
    hide Big, Text, Count, Texts, Flag, PutStr, PutStrs, PutU32, PutBool;
    var k6 := PutBool(m.force, []);
    BoolPrints(m.force, []);
    assert k6 == Flag(m.force);
    var k5 := PutU32(m.scrollback, k6);
    U32Prints(m.scrollback, k6);
    var k4 := PutStr(m.cwd, k5);
    StrPrints(m.cwd, k5);
    var k3 := PutStrs(m.env, k4);
    StrsPrints(m.env, k4);
    var k2 := PutStrs(m.command, k3);
    StrsPrints(m.command, k3);
    StrPrints(m.name, k2);
  }

  lemma AttachedFrame(m: Message)
    requires m.Attached? && Encodable(m)
    ensures [0x83] + PutAttached(m, []) == Frame(m)
  {
    hide Big, Text, Blob, Flag, PutStr, PutBytes, PutU16, PutU32, PutBool, GetAttached, GetStr, GetBytes, GetU16;
    hide GetU32, GetBool;
    var k10 := PutBool(m.created, []);
    BoolPrints(m.created, []);
    assert k10 == Flag(m.created);
    var k9 := PutBool(m.altScreen, k10);
    BoolPrints(m.altScreen, k10);
    var k8 := PutU32(m.cursorCol, k9);
    U32Prints(m.cursorCol, k9);
    var k7 := PutU32(m.cursorRow, k8);
    U32Prints(m.cursorRow, k8);
    var k6 := PutBytes(m.screenDump, k7);
    BytesPrints(m.screenDump, k7);
    var k5 := PutU16(m.rows, k6);
    U16Prints(m.rows, k6);
    var k4 := PutU16(m.cols, k5);
    U16Prints(m.cols, k5);
    var k3 := PutStr(m.clientId, k4);
    StrPrints(m.clientId, k4);
    var k2 := PutU32(m.pid, k3);
    U32Prints(m.pid, k3);
    StrPrints(m.name, k2);
  }

  lemma StatusResponseFrame(m: Message)
    requires m.StatusResponse? && Encodable(m)
    ensures [0x89] + PutStatusResponse(m, []) == Frame(m)
  {
    hide DaemonFields, InfoFields, PutDaemon, PutInfo, GetDaemon, GetInfo, GetOptionalInfo, GetStatusResponse, GetU8;
    DaemonPrints(m.daemon, PutOptionalInfo(m.session, []));
    if m.session.Some? {
      InfoPrints(m.session.value);
    }
  }

  /** The messages of one field. */
  lemma SmallFrame(m: Message)
    requires Encodable(m)
    requires m.Input? || m.List? || m.Kill? || m.Status? || m.Error? || m.Output? || m.Sessions?
             || m.Exited? || m.DumpResponse? || m.PruneResponse? || m.Detach? || m.Prune? || m.OK?
    ensures [Tag(m)] + PutBody(m, []) == Frame(m)
  {
    hide Big, Text, Blob, Count, RowList, PutStr, PutBytes, PutU32, PutRows, GetBody;
    match m {
      case Input(data) => BytesPrints(data, []); assert Blob(data) + [] == Blob(data);
      case List(_) =>
      case Kill(name) => StrPrints(name, []); assert Text(name) + [] == Text(name);
      case Status(name) => StrPrints(name, []); assert Text(name) + [] == Text(name);
      case Error(message) => StrPrints(message, []); assert Text(message) + [] == Text(message);
      case Output(data) => BytesPrints(data, []); assert Blob(data) + [] == Blob(data);
      case Sessions(v) => RowsPrint(v, []); assert RowList(v) + [] == RowList(v);
      case Exited(code) => U32Prints(Unsigned(code), []); assert Big(4, Unsigned(code)) + [] == Big(4, Unsigned(code));
      case DumpResponse(data) => BytesPrints(data, []); assert Blob(data) + [] == Blob(data);
      case PruneResponse(count) => U32Prints(count, []); assert Big(4, count) + [] == Big(4, count);
      case Detach => assert [0x04] + [] == [0x04];
      case Prune => assert [0x09] + [] == [0x09];
      case OK => assert [0x80] + [] == [0x80];
    }
  }

  /** The messages of a few fields. */
  lemma MiddleFrame(m: Message)
    requires Encodable(m)
    requires m.Resize? || m.Send? || m.Dump? || m.SendKey? || m.Kick? || m.ClientsChanged? || m.Created?
    ensures [Tag(m)] + PutBody(m, []) == Frame(m)
  {
    hide Big, Text, Blob, PutStr, PutBytes, PutU16, PutU32, GetBody;
    match m {
      case Resize(cols, rows, xpixel, ypixel) =>
        var k4 := PutU16(ypixel, []);
        U16Prints(ypixel, []);
        assert k4 == Big(2, ypixel);
        var k3 := PutU16(xpixel, k4);
        U16Prints(xpixel, k4);
        U16Prints(rows, k3);
        U16Prints(cols, PutU16(rows, k3));
      case Send(name, data) =>
        BytesPrints(data, []);
        assert Blob(data) + [] == Blob(data);
        StrPrints(name, PutBytes(data, []));
      case Dump(name, format) => StrPrints(name, PutU8(format, []));
      case SendKey(name, key, mods) =>
        U32Prints(mods, []);
        assert Big(4, mods) + [] == Big(4, mods);
        U32Prints(key, PutU32(mods, []));
        StrPrints(name, PutU32(key, PutU32(mods, [])));
      case Kick(name, clientId) =>
        StrPrints(clientId, []);
        assert Text(clientId) + [] == Text(clientId);
        StrPrints(name, PutStr(clientId, []));
      case ClientsChanged(size, cols, rows) =>
        U16Prints(rows, []);
        assert Big(2, rows) + [] == Big(2, rows);
        U16Prints(cols, PutU16(rows, []));
        U16Prints(size, PutU16(cols, PutU16(rows, [])));
      case Created(name, pid) =>
        U32Prints(pid, []);
        assert Big(4, pid) + [] == Big(4, pid);
        StrPrints(name, PutU32(pid, []));
    }
  }

  lemma FrameLayout(m: Message)
    requires Encodable(m)
    ensures FrameOf(m) == Frame(m)
  {
    hide Frame, Encodable, GetBody, PutResize, PutSend, PutDump, PutSendKey, PutKick, PutClientsChanged, PutCreated;
    hide PutAttach, PutCreate, PutAttached, PutStatusResponse, PutStr, PutBytes, PutU32, PutI32, PutBool, PutRows;
    match m {
      case Attach(_, _, _, _, _, _, _, _, _, _, _) => AttachFrame(m);
      case Create(_, _, _, _, _, _) => CreateFrame(m);
      case Attached(_, _, _, _, _, _, _, _, _, _) => AttachedFrame(m);
      case StatusResponse(_, _) => StatusResponseFrame(m);
      case Resize(_, _, _, _) => MiddleFrame(m);
      case Send(_, _) => MiddleFrame(m);
      case Dump(_, _) => MiddleFrame(m);
      case SendKey(_, _, _) => MiddleFrame(m);
      case Kick(_, _) => MiddleFrame(m);
      case ClientsChanged(_, _, _) => MiddleFrame(m);
      case Created(_, _) => MiddleFrame(m);
      case _ => SmallFrame(m);
    }
  }

  /** What is written of each of the 24 messages: the length of its frame in four bytes, then the frame. */
  lemma WrittenLayout(m: Message)
    requires Encodable(m)
    ensures FrameOf(m) == Frame(m)
    ensures |Frame(m)| < 0x1_0000_0000 ==> Written(m) == Big(4, |Frame(m)|) + Frame(m)
  {
    hide Frame, FrameOf, Big, Encodable, U32Bytes;
    FrameLayout(m);
    U32IsBig(|FrameOf(m)| % 0x1_0000_0000);
  }

  // --- What each byte is worth -----------------------------------------------

  /** The bytes of `b` from `at` on begin with the 16-bit number `v`, the more significant byte first. */
  predicate Holds16(b: Bytes, at: nat, v: int)
  {
    at + 2 <= |b| && 0x100 * b[at] as int + b[at + 1] as int == v
  }

  predicate Holds32(b: Bytes, at: nat, v: int)
  {
    && at + 4 <= |b|
    && 0x100_0000 * b[at] as int + 0x1_0000 * b[at + 1] as int + 0x100 * b[at + 2] as int + b[at + 3] as int == v
  }

  predicate Holds64(b: Bytes, at: nat, v: int)
  {
    && at + 8 <= |b|
    && 0x100_0000_0000_0000 * b[at] as int + 0x1_0000_0000_0000 * b[at + 1] as int
       + 0x100_0000_0000 * b[at + 2] as int + 0x1_0000_0000 * b[at + 3] as int
       + 0x100_0000 * b[at + 4] as int + 0x1_0000 * b[at + 5] as int
       + 0x100 * b[at + 6] as int + b[at + 7] as int == v
  }

  lemma Holds16At(a: Bytes, v: u16, k: Bytes)
    ensures Holds16(a + (Big(2, v) + k), |a|, v)
  {
    BigTwo(v);
  }

  lemma Holds32At(a: Bytes, v: u32, k: Bytes)
    ensures Holds32(a + (Big(4, v) + k), |a|, v)
  {
    BigFour(v);
    var h, b := Big(4, v), a + (Big(4, v) + k);
    hide Big;
    assert b[|a|] == h[0] && b[|a| + 1] == h[1] && b[|a| + 2] == h[2] && b[|a| + 3] == h[3];
  }

  lemma Holds64At(a: Bytes, v: u64, k: Bytes)
    ensures Holds64(a + (Big(8, v) + k), |a|, v)
  {
    var hi, lo := v / 0x1_0000_0000, v % 0x1_0000_0000;
    BigEight(v);
    BigFour(hi);
    BigFour(lo);
    var g, h, b := Big(4, hi), Big(4, lo), a + (Big(8, v) + k);
    hide Big;
    assert b[|a|] == g[0] && b[|a| + 1] == g[1] && b[|a| + 2] == g[2] && b[|a| + 3] == g[3];
    assert b[|a| + 4] == h[0] && b[|a| + 5] == h[1] && b[|a| + 6] == h[2] && b[|a| + 7] == h[3];
    assert 0x1_0000_0000 * hi + lo == v;
  }

  /** What the reader makes of a number's bytes, whoever wrote them. */
  lemma ReadersReadPositions(b: Bytes, v: int)
    ensures |b| >= 2 ==> (GetU16(b) == Got(v, b[2..]) <==> Holds16(b, 0, v))
    ensures |b| >= 4 ==> (GetU32(b) == Got(v, b[4..]) <==> Holds32(b, 0, v))
    ensures |b| >= 8 ==> (GetU64(b) == Got(v, b[8..]) <==> Holds64(b, 0, v))
  {
  }

  /** The length in front of a frame, for every frame that can have one. */
  lemma HeaderHoldsLength(m: Message)
    requires Encodable(m) && |FrameOf(m)| < 0x1_0000_0000
    ensures Written(m)[4..] == FrameOf(m) && Holds32(Written(m), 0, |FrameOf(m)|)
  {
    hide FrameOf, Encodable, U32Bytes;
    U32IsBig(|FrameOf(m)|);
    Holds32At([], |FrameOf(m)|, FrameOf(m));
    assert [] + (Big(4, |FrameOf(m)|) + FrameOf(m)) == Written(m);
  }

  lemma ResizeBytes(cols: u16, rows: u16, xpixel: u16, ypixel: u16)
    ensures var f := FrameOf(Resize(cols, rows, xpixel, ypixel));
            && |f| == 9 && f[0] == 0x03
            && Holds16(f, 1, cols) && Holds16(f, 3, rows) && Holds16(f, 5, xpixel) && Holds16(f, 7, ypixel)
  {
    FrameLayout(Resize(cols, rows, xpixel, ypixel));
    hide FrameOf, Big, Holds16;
    var t, b1, b2, b3, b4 := [0x03], Big(2, cols), Big(2, rows), Big(2, xpixel), Big(2, ypixel);
    Holds16At(t, cols, b2 + (b3 + b4));
    Shift(t, b1, b2 + (b3 + b4));
    Holds16At(t + b1, rows, b3 + b4);
    Shift(t + b1, b2, b3 + b4);
    Holds16At(t + b1 + b2, xpixel, b4);
    Shift(t + b1 + b2, b3, b4);
    Holds16At(t + b1 + b2 + b3, ypixel, []);
    assert b4 + [] == b4;
  }

  lemma ClientsChangedBytes(size: u16, cols: u16, rows: u16)
    ensures var f := FrameOf(ClientsChanged(size, cols, rows));
            && |f| == 7 && f[0] == 0x88 && Holds16(f, 1, size) && Holds16(f, 3, cols) && Holds16(f, 5, rows)
  {
    FrameLayout(ClientsChanged(size, cols, rows));
    hide FrameOf, Big, Holds16;
    var t, b1, b2, b3 := [0x88], Big(2, size), Big(2, cols), Big(2, rows);
    Holds16At(t, size, b2 + b3);
    Shift(t, b1, b2 + b3);
    Holds16At(t + b1, cols, b3);
    Shift(t + b1, b2, b3);
    Holds16At(t + b1 + b2, rows, []);
    assert b3 + [] == b3;
  }

  lemma SendKeyFields(name: Bytes, key: u32, mods: u32)
    requires |name| < 0x1_0000
    ensures var f, n := [0x0A] + (Text(name) + (Big(4, key) + Big(4, mods))), |name|;
            && |f| == n + 11 && f[0] == 0x0A && Holds16(f, 1, n) && f[3..n + 3] == name
            && Holds32(f, n + 3, key) && Holds32(f, n + 7, mods)
  {
    hide Big, Holds16, Holds32;
    var t, b1, b3, b4 := [0x0A], Big(2, |name|), Big(4, key), Big(4, mods);
    var k3 := b3 + b4;
    var k2 := name + k3;
    Shift(b1, name, k3);
    Holds16At(t, |name|, k2);
    Shift(t, b1, k2);
    var h2 := t + b1;
    assert (h2 + k2)[3..|name| + 3] == name;
    Shift(h2, name, k3);
    var h3 := h2 + name;
    Holds32At(h3, key, b4);
    Shift(h3, b3, b4);
    Holds32At(h3 + b3, mods, []);
    assert b4 + [] == b4;
  }

  lemma SendKeyBytes(name: Bytes, key: u32, mods: u32)
    requires |name| < 0x1_0000
    ensures var f, n := FrameOf(SendKey(name, key, mods)), |name|;
            && |f| == n + 11 && f[0] == 0x0A && Holds16(f, 1, n) && f[3..n + 3] == name
            && Holds32(f, n + 3, key) && Holds32(f, n + 7, mods)
  {
    FrameLayout(SendKey(name, key, mods));
    hide FrameOf, Big, Text, Holds16, Holds32;
    SendKeyFields(name, key, mods);
  }

  /** An exit code is in two's complement. */
  lemma ExitedBytes(exitCode: i32)
    ensures var f := FrameOf(Exited(exitCode));
            && |f| == 5 && f[0] == 0x85
            && Holds32(f, 1, if exitCode < 0 then 0x1_0000_0000 + exitCode else exitCode)
  {
    FrameLayout(Exited(exitCode));
    hide FrameOf;
    Holds32At([0x85], TwosComplement(exitCode), []);
    assert Big(4, TwosComplement(exitCode)) + [] == Big(4, TwosComplement(exitCode));
  }

  // --- The state file --------------------------------------------------------

  lemma U64Prints(v: u64, k: Bytes)
    ensures PutU64(v, k) == Big(8, v) + k
  {
    U32IsBig(v / 0x1_0000_0000);
    U32IsBig(v % 0x1_0000_0000);
    BigEight(v);
  }

  lemma StatePrints(s: SessionState)
    requires Encode(s).Ok?
    ensures Encode(s).value == MAGIC + ([VERSION] + (Big(2, s.cols) + (Big(2, s.rows)
              + (Big(8, Unsigned64(s.savedAt.unix)) + (Big(4, |s.snapshot|) + s.snapshot)))))
  {
    hide Big, PutU16, PutU32, PutU64, GetFields;
    assert s.snapshot + [] == s.snapshot;
    var k4 := PutU32(|s.snapshot|, s.snapshot);
    U32Prints(|s.snapshot|, s.snapshot);
    var k3 := PutU64(Unsigned64(s.savedAt.unix), k4);
    U64Prints(Unsigned64(s.savedAt.unix), k4);
    var k2 := PutU16(s.rows, k3);
    U16Prints(s.rows, k3);
    U16Prints(s.cols, k2);
  }

  lemma StateFields(cols: u16, rows: u16, seconds: u64, snapshot: Bytes)
    requires |snapshot| < 0x1_0000_0000
    ensures var f := MAGIC + ([VERSION] + (Big(2, cols) + (Big(2, rows)
                       + (Big(8, seconds) + (Big(4, |snapshot|) + snapshot)))));
            && |f| == 21 + |snapshot| && f[..5] == MAGIC + [VERSION]
            && Holds16(f, 5, cols) && Holds16(f, 7, rows) && Holds64(f, 9, seconds)
            && Holds32(f, 17, |snapshot|) && f[21..] == snapshot
  {
    hide Big, Holds16, Holds32, Holds64;
    var b2, b3, b4, b5 := Big(2, cols), Big(2, rows), Big(8, seconds), Big(4, |snapshot|);
    var k4 := b5 + snapshot;
    var k3 := b4 + k4;
    var k2 := b3 + k3;
    var k1 := b2 + k2;
    var h1 := MAGIC + [VERSION];
    Shift(MAGIC, [VERSION], k1);
    Holds16At(h1, cols, k2);
    Shift(h1, b2, k2);
    Holds16At(h1 + b2, rows, k3);
    Shift(h1 + b2, b3, k3);
    Holds64At(h1 + b2 + b3, seconds, k4);
    Shift(h1 + b2 + b3, b4, k4);
    Holds32At(h1 + b2 + b3 + b4, |snapshot|, snapshot);
    Shift(h1 + b2 + b3 + b4, b5, snapshot);
  }

  /** The file of a session, byte by byte; it exists for snapshots of 1 byte to 128 MiB. */
  lemma StateBytes(s: SessionState)
    ensures Encode(s).Ok? <==> 1 <= |s.snapshot| <= 0x800_0000
    ensures Encode(s).Ok? ==>
              var f, seconds := Encode(s).value, s.savedAt.unix;
              && |f| == 21 + |s.snapshot| && f[..5] == [0x48, 0x54, 0x53, 0x54, 2]
              && Holds16(f, 5, s.cols) && Holds16(f, 7, s.rows)
              && Holds64(f, 9, if seconds < 0 then 0x1_0000_0000_0000_0000 + seconds else seconds)
              && Holds32(f, 17, |s.snapshot|) && f[21..] == s.snapshot
  {
    hide PutFields, Big, Holds16, Holds32, Holds64;
    if Encode(s).Ok? {
      StatePrints(s);
      StateFields(s.cols, s.rows, Unsigned64(s.savedAt.unix), s.snapshot);
      assert MAGIC + [VERSION] == [0x48, 0x54, 0x53, 0x54, 2];
    }
  }
}
