/** The encoder, the decoder and the connection, as they work step by step. */
module CodecIo {
  import opened Bytes
  import opened Wire
  import opened Messages
  import opened Codec

  /** An `error` result, nil or not. */
  datatype Status = Done | Refused(error: Fault) {
    predicate IsFailure() { Refused? }

    function PropagateFailure(): Status { this }
  }

  // --- Encoding --------------------------------------------------------------

  class Encoder {
    var out: Bytes
    const buf: array<byte>

    constructor ()
      ensures out == [] && fresh(buf) && buf.Length == 4
    {
      out := [];
      buf := new byte[4](_ => 0);
    }

    /** Hands the first `n` bytes of the scratch buffer to the writer. */
    method Flush(n: nat)
      requires n <= buf.Length
      modifies this`out
      ensures out == old(out) + buf[..n]
    {
      out := out + buf[..n];
    }

    method WriteU8(v: byte)
      requires buf.Length == 4
      modifies this`out, buf
      ensures forall k {:trigger PutU8(v, k)} :: out + k == old(out) + PutU8(v, k)
    {
      buf[0] := v;
      Flush(1);
      assert buf[..1] == [v];
    }

    method WriteU16(v: u16)
      requires buf.Length == 4
      modifies this`out, buf
      ensures forall k {:trigger PutU16(v, k)} :: out + k == old(out) + PutU16(v, k)
    {
      buf[0], buf[1] := v / 0x100, v % 0x100;
      Flush(2);
      assert buf[..2] == U16Bytes(v);
    }

    method WriteU32(v: u32)
      requires buf.Length == 4
      modifies this`out, buf
      ensures out == old(out) + U32Bytes(v)
      ensures forall k {:trigger PutU32(v, k)} :: out + k == old(out) + PutU32(v, k)
    {
      var hi, lo := v / 0x1_0000, v % 0x1_0000;
      buf[0], buf[1], buf[2], buf[3] := hi / 0x100, hi % 0x100, lo / 0x100, lo % 0x100;
      Flush(4);
      assert buf[..4] == U32Bytes(v);
    }

    method WriteI32(v: i32)
      requires buf.Length == 4
      modifies this`out, buf
      ensures forall k {:trigger PutI32(v, k)} :: out + k == old(out) + PutI32(v, k)
    {
      WriteU32(Unsigned(v));
    }

    method WriteBool(v: bool)
      requires buf.Length == 4
      modifies this`out, buf
      ensures forall k {:trigger PutBool(v, k)} :: out + k == old(out) + PutBool(v, k)
    {
      WriteU8(if v then 1 else 0);
    }

    method WriteStr(s: Bytes) returns (r: Status)
      requires buf.Length == 4
      modifies this`out, buf
      ensures r == if |s| < 0x1_0000 then Done else Refused(StringTooLong)
      ensures r.Done? ==> forall k {:trigger PutStr(s, k)} :: out + k == old(out) + PutStr(s, k)
    {
      if |s| > MAX_STRING {
        return Refused(StringTooLong);
      }
      WriteU16(|s|);
      out := out + s;
      r := Done;
    }

    method WriteCount(n: nat)
      requires buf.Length == 4
      modifies this`out, buf
      ensures forall k {:trigger PutCount(n, k)} :: out + k == old(out) + PutCount(n, k)
    {
      WriteU32(n % 0x1_0000_0000);
    }

    method WriteBytes(v: Bytes)
      requires buf.Length == 4
      modifies this`out, buf
      ensures forall k {:trigger PutBytes(v, k)} :: out + k == old(out) + PutBytes(v, k)
    {
      WriteCount(|v|);
      out := out + v;
    }

    method WriteStrs(v: seq<Bytes>) returns (r: Status)
      requires buf.Length == 4
      modifies this`out, buf
      ensures r == if AllShort(v) then Done else Refused(StringTooLong)
      ensures r.Done? ==> forall k {:trigger PutStrs(v, k)} :: out + k == old(out) + PutStrs(v, k)
    {
      WriteCount(|v|);
      for i := 0 to |v|
        invariant AllShort(v[..i])
        invariant AllShort(v) ==>
          forall k {:trigger PutStrs(v, k)} :: out + PutStrList(v[i..], k) == old(out) + PutStrs(v, k)
      {
        assert v[i] in v && v[..i + 1] == v[..i] + [v[i]];
        assert v[i..] == [v[i]] + v[i + 1..];
        :- WriteStr(v[i]);
      }
      assert v[..|v|] == v;
      r := Done;
    }

    method WriteClient(c: SessionClient) returns (r: Status)
      requires buf.Length == 4
      modifies this`out, buf
      ensures r == if ClientShort(c) then Done else Refused(StringTooLong)
      ensures r.Done? ==> forall k {:trigger PutClient(c, k)} :: out + k == old(out) + PutClient(c, k)
    {
      r := Done;
      :- WriteStr(c.clientId);
      WriteBool(c.readOnly);
      :- WriteStr(c.version);
    }

    method WriteClients(v: seq<SessionClient>) returns (r: Status)
      requires buf.Length == 4
      modifies this`out, buf
      ensures r == if ClientsShort(v) then Done else Refused(StringTooLong)
      ensures r.Done? ==> forall k {:trigger PutClients(v, k)} :: out + k == old(out) + PutClients(v, k)
    {
      WriteCount(|v|);
      for i := 0 to |v|
        invariant ClientsShort(v[..i])
        invariant ClientsShort(v) ==>
          forall k {:trigger PutClients(v, k)} :: out + PutClientList(v[i..], k) == old(out) + PutClients(v, k)
      {
        assert v[i] in v && v[..i + 1] == v[..i] + [v[i]];
        assert v[i..] == [v[i]] + v[i + 1..];
        :- WriteClient(v[i]);
      }
      assert v[..|v|] == v;
      r := Done;
    }

    method WriteRow(s: SessionRow) returns (r: Status)
      requires buf.Length == 4
      modifies this`out, buf
      ensures r == if RowShort(s) then Done else Refused(StringTooLong)
      ensures r.Done? ==> forall k {:trigger PutRow(s, k)} :: out + k == old(out) + PutRow(s, k)
    {
      r := Done;
      :- WriteStr(s.name);
      :- WriteStr(s.state);
      WriteU16(s.cols);
      WriteU16(s.rows);
      WriteU32(s.pid);
      WriteU32(s.createdAt);
      WriteU32(s.savedAt);
      :- WriteStr(s.cwd);
      :- WriteClients(s.clients);
    }

    method WriteRows(v: seq<SessionRow>) returns (r: Status)
      requires buf.Length == 4
      modifies this`out, buf
      ensures r == if RowsShort(v) then Done else Refused(StringTooLong)
      ensures r.Done? ==> forall k {:trigger PutRows(v, k)} :: out + k == old(out) + PutRows(v, k)
    {
      WriteCount(|v|);
      for i := 0 to |v|
        invariant RowsShort(v[..i])
        invariant RowsShort(v) ==>
          forall k {:trigger PutRows(v, k)} :: out + PutRowList(v[i..], k) == old(out) + PutRows(v, k)
      {
        assert v[i] in v && v[..i + 1] == v[..i] + [v[i]];
        assert v[i..] == [v[i]] + v[i + 1..];
        :- WriteRow(v[i]);
      }
      assert v[..|v|] == v;
      r := Done;
    }

    method EncodeAttach(m: Message) returns (r: Status)
      requires m.Attach?
      requires buf.Length == 4
      modifies this`out, buf
      ensures r == if Encodable(m) then Done else Refused(StringTooLong)
      ensures r.Done? ==> forall k {:trigger PutAttach(m, k)} :: out + k == old(out) + PutAttach(m, k)
    {
      r := Done;
      :- WriteStr(m.name);
      :- WriteStrs(m.command);
      :- WriteStrs(m.env);
      :- WriteStr(m.cwd);
      WriteU16(m.cols);
      WriteU16(m.rows);
      WriteU16(m.xpixel);
      WriteU16(m.ypixel);
      WriteBool(m.readOnly);
      WriteBool(m.restore);
      WriteU32(m.scrollback);
    }

    method EncodeCreate(m: Message) returns (r: Status)
      requires m.Create?
      requires buf.Length == 4
      modifies this`out, buf
      ensures r == if Encodable(m) then Done else Refused(StringTooLong)
      ensures r.Done? ==> forall k {:trigger PutCreate(m, k)} :: out + k == old(out) + PutCreate(m, k)
    {
      r := Done;
      :- WriteStr(m.name);
      :- WriteStrs(m.command);
      :- WriteStrs(m.env);
      :- WriteStr(m.cwd);
      WriteU32(m.scrollback);
      WriteBool(m.force);
    }

    method EncodeAttached(m: Message) returns (r: Status)
      requires m.Attached?
      requires buf.Length == 4
      modifies this`out, buf
      ensures r == if Encodable(m) then Done else Refused(StringTooLong)
      ensures r.Done? ==> forall k {:trigger PutAttached(m, k)} :: out + k == old(out) + PutAttached(m, k)
    {
      r := Done;
      :- WriteStr(m.name);
      WriteU32(m.pid);
      :- WriteStr(m.clientId);
      WriteU16(m.cols);
      WriteU16(m.rows);
      WriteBytes(m.screenDump);
      WriteU32(m.cursorRow);
      WriteU32(m.cursorCol);
      WriteBool(m.altScreen);
      WriteBool(m.created);
    }

    method WriteDaemon(d: DaemonInfo) returns (r: Status)
      requires buf.Length == 4
      modifies this`out, buf
      ensures r == if Short(d.socketPath) && Short(d.version) then Done else Refused(StringTooLong)
      ensures r.Done? ==> forall k {:trigger PutDaemon(d, k)} :: out + k == old(out) + PutDaemon(d, k)
    {
      WriteU32(d.pid);
      WriteU32(d.uptime);
      :- WriteStr(d.socketPath);
      WriteU32(d.runningCount);
      WriteU32(d.deadCount);
      :- WriteStr(d.version);
      r := Done;
    }

    method WriteInfo(s: SessionInfo) returns (r: Status)
      requires buf.Length == 4
      modifies this`out, buf
      ensures r == if InfoShort(s) then Done else Refused(StringTooLong)
      ensures r.Done? ==> forall k {:trigger PutInfo(s, k)} :: out + k == old(out) + PutInfo(s, k)
    {
      r := Done;
      :- WriteStr(s.name);
      :- WriteStr(s.state);
      WriteU16(s.cols);
      WriteU16(s.rows);
      WriteU32(s.pid);
      :- WriteStr(s.cwd);
      :- WriteClients(s.clients);
    }

    method EncodeStatusResponse(m: Message) returns (r: Status)
      requires m.StatusResponse?
      requires buf.Length == 4
      modifies this`out, buf
      ensures r == if Encodable(m) then Done else Refused(StringTooLong)
      ensures r.Done? ==> forall k {:trigger PutStatusResponse(m, k)} :: out + k == old(out) + PutStatusResponse(m, k)
    {
      r := Done;
      :- WriteDaemon(m.daemon);
      if m.session.None? {
        WriteU8(0);
        return Done;
      }
      WriteU8(1);
      :- WriteInfo(m.session.value);
    }

    method EncodeResize(m: Message) returns (r: Status)
      requires m.Resize?
      requires buf.Length == 4
      modifies this`out, buf
      ensures r == if Encodable(m) then Done else Refused(StringTooLong)
      ensures r.Done? ==> forall k {:trigger PutResize(m, k)} :: out + k == old(out) + PutResize(m, k)
    {
      WriteU16(m.cols);
      WriteU16(m.rows);
      WriteU16(m.xpixel);
      WriteU16(m.ypixel);
      r := Done;
    }

    method EncodeSend(m: Message) returns (r: Status)
      requires m.Send?
      requires buf.Length == 4
      modifies this`out, buf
      ensures r == if Encodable(m) then Done else Refused(StringTooLong)
      ensures r.Done? ==> forall k {:trigger PutSend(m, k)} :: out + k == old(out) + PutSend(m, k)
    {
      r := Done;
      :- WriteStr(m.name);
      WriteBytes(m.data);
    }

    method EncodeDump(m: Message) returns (r: Status)
      requires m.Dump?
      requires buf.Length == 4
      modifies this`out, buf
      ensures r == if Encodable(m) then Done else Refused(StringTooLong)
      ensures r.Done? ==> forall k {:trigger PutDump(m, k)} :: out + k == old(out) + PutDump(m, k)
    {
      r := Done;
      :- WriteStr(m.name);
      WriteU8(m.format);
    }

    method EncodeSendKey(m: Message) returns (r: Status)
      requires m.SendKey?
      requires buf.Length == 4
      modifies this`out, buf
      ensures r == if Encodable(m) then Done else Refused(StringTooLong)
      ensures r.Done? ==> forall k {:trigger PutSendKey(m, k)} :: out + k == old(out) + PutSendKey(m, k)
    {
      r := Done;
      :- WriteStr(m.name);
      WriteU32(m.key);
      WriteU32(m.mods);
    }

    method EncodeKick(m: Message) returns (r: Status)
      requires m.Kick?
      requires buf.Length == 4
      modifies this`out, buf
      ensures r == if Encodable(m) then Done else Refused(StringTooLong)
      ensures r.Done? ==> forall k {:trigger PutKick(m, k)} :: out + k == old(out) + PutKick(m, k)
    {
      r := Done;
      :- WriteStr(m.name);
      :- WriteStr(m.clientId);
    }

    method EncodeClientsChanged(m: Message) returns (r: Status)
      requires m.ClientsChanged?
      requires buf.Length == 4
      modifies this`out, buf
      ensures r == if Encodable(m) then Done else Refused(StringTooLong)
      ensures r.Done? ==> forall k {:trigger PutClientsChanged(m, k)} :: out + k == old(out) + PutClientsChanged(m, k)
    {
      WriteU16(m.size);
      WriteU16(m.cols);
      WriteU16(m.rows);
      r := Done;
    }

    method EncodeCreated(m: Message) returns (r: Status)
      requires m.Created?
      requires buf.Length == 4
      modifies this`out, buf
      ensures r == if Encodable(m) then Done else Refused(StringTooLong)
      ensures r.Done? ==> forall k {:trigger PutCreated(m, k)} :: out + k == old(out) + PutCreated(m, k)
    {
      r := Done;
      :- WriteStr(m.name);
      WriteU32(m.pid);
    }

    /** The payload of a request, field by field. */
    method EncodeRequest(m: Message) returns (r: Status)
      requires Tag(m) < 0x80
      requires buf.Length == 4
      modifies this`out, buf
      ensures r == if Encodable(m) then Done else Refused(StringTooLong)
      ensures r.Done? ==> forall k {:trigger PutBody(m, k)} :: out + k == old(out) + PutBody(m, k)
    {
      hide PutAttach, PutCreate, PutAttached, PutStatusResponse, PutRows, PutBytes, PutStr, PutU32, PutI32, PutBool;
      hide PutResize, PutSend, PutDump, PutSendKey, PutKick, PutClientsChanged, PutCreated;
      match m {
        case Attach(_, _, _, _, _, _, _, _, _, _, _) => :- EncodeAttach(m);
        case Input(data) => WriteBytes(data);
        case Resize(_, _, _, _) => :- EncodeResize(m);
        case Detach =>
        case List(includeClients) => WriteBool(includeClients);
        case Kill(name) => :- WriteStr(name);
        case Send(_, _) => :- EncodeSend(m);
        case Dump(_, _) => :- EncodeDump(m);
        case Prune =>
        case SendKey(_, _, _) => :- EncodeSendKey(m);
        case Create(_, _, _, _, _, _) => :- EncodeCreate(m);
        case Status(name) => :- WriteStr(name);
        case Kick(_, _) => :- EncodeKick(m);
      }
      r := Done;
    }

    /** The payload of a response, field by field. */
    method EncodeResponse(m: Message) returns (r: Status)
      requires Tag(m) >= 0x80
      requires buf.Length == 4
      modifies this`out, buf
      ensures r == if Encodable(m) then Done else Refused(StringTooLong)
      ensures r.Done? ==> forall k {:trigger PutBody(m, k)} :: out + k == old(out) + PutBody(m, k)
    {
      hide PutAttach, PutCreate, PutAttached, PutStatusResponse, PutRows, PutBytes, PutStr, PutU32, PutI32, PutBool;
      hide PutResize, PutSend, PutDump, PutSendKey, PutKick, PutClientsChanged, PutCreated;
      match m {
        case OK =>
        case Error(message) => :- WriteStr(message);
        case Output(data) => WriteBytes(data);
        case Attached(_, _, _, _, _, _, _, _, _, _) => :- EncodeAttached(m);
        case Sessions(sessions) => :- WriteRows(sessions);
        case Exited(exitCode) => WriteI32(exitCode);
        case DumpResponse(data) => WriteBytes(data);
        case PruneResponse(count) => WriteU32(count);
        case ClientsChanged(_, _, _) => :- EncodeClientsChanged(m);
        case StatusResponse(_, _) => :- EncodeStatusResponse(m);
        case Created(_, _) => :- EncodeCreated(m);
      }
      r := Done;
    }

    method Encode(m: Message) returns (r: Status)
      requires buf.Length == 4
      modifies this`out, buf
      ensures r == if Encodable(m) then Done else Refused(StringTooLong)
      ensures r.Done? ==> forall k {:trigger PutBody(m, k)} :: out + k == old(out) + PutBody(m, k)
    {
      if Tag(m) < 0x80 {
        r := EncodeRequest(m);
      } else {
        r := EncodeResponse(m);
      }
    }
  }

  // --- Decoding --------------------------------------------------------------

  /** A reader's result and what it leaves unread are what the parser says. */
  ghost predicate Agrees<T>(p: Parsed<T>, r: Outcome<T>, unread: Bytes)
  {
    match p
    case Got(v, rest) => r == Ok(v) && unread == rest
    case Failed(e, rest) => r == Err(e) && unread == rest
  }

  function Prepend<T>(v: seq<T>, tail: Parsed<seq<T>>): Parsed<seq<T>>
  {
    match tail
    case Got(w, rest) => Got(v + w, rest)
    case Failed(e, rest) => Failed(e, rest)
  }

  lemma PrependNothing<T>(tail: Parsed<seq<T>>)
    ensures Prepend([], tail) == tail
  {
    if tail.Got? {
      assert [] + tail.value == tail.value;
    }
  }

  lemma PrependMore<T>(v: seq<T>, x: T, tail: Parsed<seq<T>>)
    ensures Prepend(v + [x], tail) == Prepend(v, Prepend([x], tail))
  {
    if tail.Got? {
      assert v + [x] + tail.value == v + ([x] + tail.value);
    }
  }

  class Decoder {
    var unread: Bytes
    const buf: array<byte>

    constructor (b: Bytes)
      ensures unread == b && fresh(buf) && buf.Length == 4
    {
      unread := b;
      buf := new byte[4](_ => 0);
    }

    /** Fills the first `n` bytes of the scratch buffer, or fails. */
    method Fill(n: nat) returns (r: Status)
      requires n <= buf.Length
      modifies this`unread, buf
      ensures r == if n <= |old(unread)| then Done else Refused(ShortRead(old(unread)))
      ensures Take(n, old(unread)) == if r.Done? then Got(buf[..n], unread) else Failed(r.error, unread)
    {
      if |unread| < n {
        r := Refused(ShortRead(unread));
        unread := [];
        return;
      }
      for i := 0 to n
        invariant unread == old(unread)
        invariant buf[..i] == unread[..i]
      {
        buf[i] := unread[i];
      }
      unread := unread[n..];
      r := Done;
    }

    method ReadFull(n: nat) returns (r: Outcome<Bytes>)
      modifies this`unread
      ensures Agrees(Take(n, old(unread)), r, unread)
    {
      if |unread| < n {
        r := Err(ShortRead(unread));
        unread := [];
        return;
      }
      r := Ok(unread[..n]);
      unread := unread[n..];
    }

    method ReadU8() returns (r: Outcome<byte>)
      requires buf.Length == 4
      modifies this`unread, buf
      ensures Agrees(GetU8(old(unread)), r, unread)
    {
      var filled := Fill(1);
      if filled.Refused? {
        return Err(filled.error);
      }
      r := Ok(buf[0]);
    }

    method ReadU16() returns (r: Outcome<u16>)
      requires buf.Length == 4
      modifies this`unread, buf
      ensures Agrees(GetU16(old(unread)), r, unread)
    {
      var filled := Fill(2);
      if filled.Refused? {
        return Err(filled.error);
      }
      r := Ok(U16Of(buf[..2]));
    }

    method ReadU32() returns (r: Outcome<u32>)
      requires buf.Length == 4
      modifies this`unread, buf
      ensures Agrees(GetU32(old(unread)), r, unread)
    {
      var filled := Fill(4);
      if filled.Refused? {
        return Err(filled.error);
      }
      r := Ok(U32Of(buf[..4]));
    }

    method ReadI32() returns (r: Outcome<i32>)
      requires buf.Length == 4
      modifies this`unread, buf
      ensures Agrees(GetI32(old(unread)), r, unread)
    {
      var filled := Fill(4);
      if filled.Refused? {
        return Err(filled.error);
      }
      r := Ok(Signed(U32Of(buf[..4])));
    }

    method ReadBool() returns (r: Outcome<bool>)
      requires buf.Length == 4
      modifies this`unread, buf
      ensures Agrees(GetBool(old(unread)), r, unread)
    {
      var filled := Fill(1);
      if filled.Refused? {
        return Err(filled.error);
      }
      r := Ok(buf[0] != 0);
    }

    method ReadStr() returns (r: Outcome<Bytes>)
      requires buf.Length == 4
      modifies this`unread, buf
      ensures Agrees(GetStr(old(unread)), r, unread)
    {
      var n :- ReadU16();
      if n == 0 {
        assert unread[0..] == unread;
        return Ok([]);
      }
      r := ReadFull(n);
    }

    method ReadCount() returns (r: Outcome<u32>)
      requires buf.Length == 4
      modifies this`unread, buf
      ensures Agrees(GetCount(old(unread)), r, unread)
    {
      var n :- ReadU32();
      if n > MAX_FRAME {
        return Err(LimitExceeded);
      }
      r := Ok(n);
    }

    method ReadBytes() returns (r: Outcome<Bytes>)
      requires buf.Length == 4
      modifies this`unread, buf
      ensures Agrees(GetBytes(old(unread)), r, unread)
    {
      var n :- ReadCount();
      if n == 0 {
        assert unread[0..] == unread;
        return Ok([]);
      }
      r := ReadFull(n);
    }

    method ReadStrs() returns (r: Outcome<seq<Bytes>>)
      requires buf.Length == 4
      modifies this`unread, buf
      ensures Agrees(GetStrs(old(unread)), r, unread)
    {
      hide GetStr;
      var n :- ReadCount();
      var v: seq<Bytes> := [];
      ghost var all := GetStrList(n, unread);
      PrependNothing(all);
      for i := 0 to n
        invariant all == Prepend(v, GetStrList(n - i, unread))
      {
        ghost var before := unread;
        var x := ReadStr();
        if x.Err? {
          assert GetStrList(n - i, before) == Failed(x.error, unread);
          assert all == Failed(x.error, unread);
          return Err(x.error);
        }
        assert GetStrList(n - i, before) == Prepend([x.value], GetStrList(n - i - 1, unread));
        PrependMore(v, x.value, GetStrList(n - i - 1, unread));
        v := v + [x.value];
      }
      assert v + [] == v;
      r := Ok(v);
    }

    method ReadClient() returns (r: Outcome<SessionClient>)
      requires buf.Length == 4
      modifies this`unread, buf
      ensures Agrees(GetClient(old(unread)), r, unread)
    {
      var clientId :- ReadStr();
      var readOnly :- ReadBool();
      var version :- ReadStr();
      r := Ok(SessionClient(clientId, readOnly, version));
    }

    method ReadClients() returns (r: Outcome<seq<SessionClient>>)
      requires buf.Length == 4
      modifies this`unread, buf
      ensures Agrees(GetClients(old(unread)), r, unread)
    {
      hide GetClient;
      var n :- ReadCount();
      var v: seq<SessionClient> := [];
      ghost var all := GetClientList(n, unread);
      PrependNothing(all);
      for i := 0 to n
        invariant all == Prepend(v, GetClientList(n - i, unread))
      {
        ghost var before := unread;
        var x := ReadClient();
        if x.Err? {
          assert GetClientList(n - i, before) == Failed(x.error, unread);
          assert all == Failed(x.error, unread);
          return Err(x.error);
        }
        assert GetClientList(n - i, before) == Prepend([x.value], GetClientList(n - i - 1, unread));
        PrependMore(v, x.value, GetClientList(n - i - 1, unread));
        v := v + [x.value];
      }
      assert v + [] == v;
      r := Ok(v);
    }

    method ReadRow() returns (r: Outcome<SessionRow>)
      requires buf.Length == 4
      modifies this`unread, buf
      ensures Agrees(GetRow(old(unread)), r, unread)
    {
      var name :- ReadStr();
      var state :- ReadStr();
      var cols :- ReadU16();
      var rows :- ReadU16();
      var pid :- ReadU32();
      var createdAt :- ReadU32();
      var savedAt :- ReadU32();
      var cwd :- ReadStr();
      var clients :- ReadClients();
      r := Ok(SessionRow(name, state, cols, rows, pid, createdAt, savedAt, cwd, clients));
    }

    method ReadRows() returns (r: Outcome<seq<SessionRow>>)
      requires buf.Length == 4
      modifies this`unread, buf
      ensures Agrees(GetRows(old(unread)), r, unread)
    {
      hide GetRow;
      var n :- ReadCount();
      var v: seq<SessionRow> := [];
      ghost var all := GetRowList(n, unread);
      PrependNothing(all);
      for i := 0 to n
        invariant all == Prepend(v, GetRowList(n - i, unread))
      {
        ghost var before := unread;
        var x := ReadRow();
        if x.Err? {
          assert GetRowList(n - i, before) == Failed(x.error, unread);
          assert all == Failed(x.error, unread);
          return Err(x.error);
        }
        assert GetRowList(n - i, before) == Prepend([x.value], GetRowList(n - i - 1, unread));
        PrependMore(v, x.value, GetRowList(n - i - 1, unread));
        v := v + [x.value];
      }
      assert v + [] == v;
      r := Ok(v);
    }

    method DecodeAttach() returns (r: Outcome<Message>)
      requires buf.Length == 4
      modifies this`unread, buf
      ensures Agrees(GetAttach(old(unread)), r, unread)
    {
      var name :- ReadStr();
      var command :- ReadStrs();
      var env :- ReadStrs();
      var cwd :- ReadStr();
      var cols :- ReadU16();
      var rows :- ReadU16();
      var xpixel :- ReadU16();
      var ypixel :- ReadU16();
      var readOnly :- ReadBool();
      var restore :- ReadBool();
      var scrollback :- ReadU32();
      r := Ok(Attach(name, command, env, cwd, cols, rows, xpixel, ypixel, readOnly, restore, scrollback));
    }

    method DecodeCreate() returns (r: Outcome<Message>)
      requires buf.Length == 4
      modifies this`unread, buf
      ensures Agrees(GetCreate(old(unread)), r, unread)
    {
      var name :- ReadStr();
      var command :- ReadStrs();
      var env :- ReadStrs();
      var cwd :- ReadStr();
      var scrollback :- ReadU32();
      var force :- ReadBool();
      r := Ok(Create(name, command, env, cwd, scrollback, force));
    }

    method DecodeAttached() returns (r: Outcome<Message>)
      requires buf.Length == 4
      modifies this`unread, buf
      ensures Agrees(GetAttached(old(unread)), r, unread)
    {
      var name :- ReadStr();
      var pid :- ReadU32();
      var clientId :- ReadStr();
      var cols :- ReadU16();
      var rows :- ReadU16();
      var screenDump :- ReadBytes();
      var cursorRow :- ReadU32();
      var cursorCol :- ReadU32();
      var altScreen :- ReadBool();
      var created :- ReadBool();
      r := Ok(Attached(name, pid, clientId, cols, rows, screenDump, cursorRow, cursorCol, altScreen, created));
    }

    method DecodeResize() returns (r: Outcome<Message>)
      requires buf.Length == 4
      modifies this`unread, buf
      ensures Agrees(GetResize(old(unread)), r, unread)
    {
      var cols :- ReadU16();
      var rows :- ReadU16();
      var xpixel :- ReadU16();
      var ypixel :- ReadU16();
      r := Ok(Resize(cols, rows, xpixel, ypixel));
    }

    method DecodeSend() returns (r: Outcome<Message>)
      requires buf.Length == 4
      modifies this`unread, buf
      ensures Agrees(GetSend(old(unread)), r, unread)
    {
      var name :- ReadStr();
      var data :- ReadBytes();
      r := Ok(Send(name, data));
    }

    method DecodeDump() returns (r: Outcome<Message>)
      requires buf.Length == 4
      modifies this`unread, buf
      ensures Agrees(GetDump(old(unread)), r, unread)
    {
      var name :- ReadStr();
      var format :- ReadU8();
      r := Ok(Dump(name, format));
    }

    method DecodeSendKey() returns (r: Outcome<Message>)
      requires buf.Length == 4
      modifies this`unread, buf
      ensures Agrees(GetSendKey(old(unread)), r, unread)
    {
      var name :- ReadStr();
      var key :- ReadU32();
      var mods :- ReadU32();
      r := Ok(SendKey(name, key, mods));
    }

    method DecodeKick() returns (r: Outcome<Message>)
      requires buf.Length == 4
      modifies this`unread, buf
      ensures Agrees(GetKick(old(unread)), r, unread)
    {
      var name :- ReadStr();
      var clientId :- ReadStr();
      r := Ok(Kick(name, clientId));
    }

    method DecodeClientsChanged() returns (r: Outcome<Message>)
      requires buf.Length == 4
      modifies this`unread, buf
      ensures Agrees(GetClientsChanged(old(unread)), r, unread)
    {
      var size :- ReadU16();
      var cols :- ReadU16();
      var rows :- ReadU16();
      r := Ok(ClientsChanged(size, cols, rows));
    }

    method DecodeCreated() returns (r: Outcome<Message>)
      requires buf.Length == 4
      modifies this`unread, buf
      ensures Agrees(GetCreated(old(unread)), r, unread)
    {
      var name :- ReadStr();
      var pid :- ReadU32();
      r := Ok(Created(name, pid));
    }

    method ReadDaemon() returns (r: Outcome<DaemonInfo>)
      requires buf.Length == 4
      modifies this`unread, buf
      ensures Agrees(GetDaemon(old(unread)), r, unread)
    {
      var pid :- ReadU32();
      var uptime :- ReadU32();
      var socketPath :- ReadStr();
      var runningCount :- ReadU32();
      var deadCount :- ReadU32();
      var version :- ReadStr();
      r := Ok(DaemonInfo(pid, uptime, socketPath, runningCount, deadCount, version));
    }

    method ReadInfo() returns (r: Outcome<SessionInfo>)
      requires buf.Length == 4
      modifies this`unread, buf
      ensures Agrees(GetInfo(old(unread)), r, unread)
    {
      var name :- ReadStr();
      var state :- ReadStr();
      var cols :- ReadU16();
      var rows :- ReadU16();
      var pid :- ReadU32();
      var cwd :- ReadStr();
      var clients :- ReadClients();
      r := Ok(SessionInfo(name, state, cols, rows, pid, cwd, clients));
    }

    method DecodeStatusResponse() returns (r: Outcome<Message>)
      requires buf.Length == 4
      modifies this`unread, buf
      ensures Agrees(GetStatusResponse(old(unread)), r, unread)
    {
      var daemon :- ReadDaemon();
      var flag :- ReadU8();
      if flag == 0 {
        return Ok(StatusResponse(daemon, None));
      }
      var info :- ReadInfo();
      r := Ok(StatusResponse(daemon, Some(info)));
    }

    /** The payload of the message type that a tag stands for, field by field. */
    method Decode(tag: byte) returns (r: Outcome<Message>)
      requires buf.Length == 4
      modifies this`unread, buf
      ensures Agrees(GetBody(tag, old(unread)), r, unread)
    {
      match tag {
        case 0x01 => r := DecodeAttach();
        case 0x02 => var data :- ReadBytes(); r := Ok(Input(data));
        case 0x03 => r := DecodeResize();
        case 0x04 => r := Ok(Detach);
        case 0x05 => var includeClients :- ReadBool(); r := Ok(List(includeClients));
        case 0x06 => var name :- ReadStr(); r := Ok(Kill(name));
        case 0x07 => r := DecodeSend();
        case 0x08 => r := DecodeDump();
        case 0x09 => r := Ok(Prune);
        case 0x0A => r := DecodeSendKey();
        case 0x0B => r := DecodeCreate();
        case 0x0C => var name :- ReadStr(); r := Ok(Status(name));
        case 0x0D => r := DecodeKick();
        case 0x80 => r := Ok(OK);
        case 0x81 => var message :- ReadStr(); r := Ok(Error(message));
        case 0x82 => var data :- ReadBytes(); r := Ok(Output(data));
        case 0x83 => r := DecodeAttached();
        case 0x84 => var sessions :- ReadRows(); r := Ok(Sessions(sessions));
        case 0x85 => var exitCode :- ReadI32(); r := Ok(Exited(exitCode));
        case 0x86 => var data :- ReadBytes(); r := Ok(DumpResponse(data));
        case 0x87 => var count :- ReadU32(); r := Ok(PruneResponse(count));
        case 0x88 => r := DecodeClientsChanged();
        case 0x89 => r := DecodeStatusResponse();
        case 0x8A => r := DecodeCreated();
        case _ => r := Err(UnknownType);
      }
    }
  }

  // --- The connection --------------------------------------------------------

  method EncodeFrame(m: Message) returns (r: Outcome<Bytes>)
    ensures r == if Encodable(m) then Ok(FrameOf(m)) else Err(StringTooLong)
  {
    var enc := new Encoder();
    enc.WriteU8(Tag(m));
    var encoded := enc.Encode(m);
    if encoded.Refused? {
      return Err(encoded.error);
    }
    assert enc.out == enc.out + [] == [] + PutU8(Tag(m), PutBody(m, [])) == FrameOf(m);
    r := Ok(enc.out);
  }

  /** Where two writes in a row break off. */
  lemma Cut(sent: Bytes, header: Bytes, frame: Bytes, n: nat)
    ensures (sent + header) + frame == sent + (header + frame)
    ensures n <= |header| ==> (header + frame)[..n] == header[..n]
    ensures |header| <= n <= |header + frame| ==>
              (sent + header) + frame[..n - |header|] == sent + (header + frame)[..n]
  {
  }

  predicate Takes(room: Option<nat>, b: Bytes)
  {
    room.Some? ==> |b| <= room.value
  }

  function Less(room: Option<nat>, n: nat): Option<nat>
    requires room.Some? ==> n <= room.value
  {
    if room.Some? then Some(room.value - n) else None
  }

  /** A socket: `room` is how many more bytes it takes before writing to it fails, if it ever does. */
  class Conn {
    var incoming: Bytes
    var outgoing: Bytes
    var room: Option<nat>

    constructor (b: Bytes, room: Option<nat>)
      ensures incoming == b && outgoing == [] && this.room == room
    {
      incoming, outgoing, this.room := b, [], room;
    }

    method Write(b: Bytes) returns (r: Status)
      modifies this`outgoing, this`room
      ensures Takes(old(room), b) ==> r == Done && outgoing == old(outgoing) + b && room == Less(old(room), |b|)
      ensures !Takes(old(room), b) ==>
                r == Refused(WriteFailed) && outgoing == old(outgoing) + b[..old(room).value] && room == Some(0)
    {
      if room.Some? && room.value < |b| {
        outgoing, room := outgoing + b[..room.value], Some(0);
        return Refused(WriteFailed);
      }
      outgoing, room := outgoing + b, Less(room, |b|);
      r := Done;
    }

    /**
     * Encodes in memory first, so that a message that cannot be encoded writes nothing;
     * a write error leaves as much of the frame as the socket took.
     */
    method WriteMessage(m: Message) returns (r: Status)
      modifies this`outgoing, this`room
      ensures !Encodable(m) ==> r == Refused(StringTooLong) && outgoing == old(outgoing) && room == old(room)
      ensures Encodable(m) && Takes(old(room), Written(m)) ==>
                r == Done && outgoing == old(outgoing) + Written(m) && room == Less(old(room), |Written(m)|)
      ensures Encodable(m) && !Takes(old(room), Written(m)) ==>
                r == Refused(WriteFailed) && room == Some(0)
                && outgoing == old(outgoing) + Written(m)[..old(room).value]
    {
      hide Encodable, FrameOf, U32Bytes, U32Of, GetU32, PutU32;
      var encoded := EncodeFrame(m);
      if encoded.Err? {
        return Refused(encoded.error);
      }
      var frame := encoded.value;
      var lenEnc := new Encoder();
      lenEnc.WriteU32(|frame| % 0x1_0000_0000);
      var header := lenEnc.out;
      assert header == Header(frame) && Written(m) == header + frame;
      hide Written, Header;
      Cut(outgoing, header, frame, if room.Some? then room.value else 0);
      r := Write(header);
      if r.Refused? {
        return;
      }
      r := Write(frame);
    }

    /** Reads a whole frame before decoding it, so that decoding never reads past it. */
    method ReadMessage() returns (r: Outcome<Message>)
      modifies this`incoming
      ensures (r, incoming) == ReadFrame(old(incoming))
    {
      hide GetBody;
      var dec := new Decoder(incoming);
      var length := dec.ReadU32();
      incoming := dec.unread;
      if length.Err? {
        return Err(length.error);
      }
      if length.value == 0 {
        return Err(EmptyFrame);
      }
      if length.value > MAX_FRAME {
        return Err(FrameTooLarge);
      }
      var frame := dec.ReadFull(length.value);
      incoming := dec.unread;
      if frame.Err? {
        return Err(frame.error);
      }
      var frameDec := new Decoder(frame.value);
      var tag := frameDec.ReadU8();
      assert frameDec.unread == frame.value[1..];
      r := frameDec.Decode(tag.value);
    }
  }
}
