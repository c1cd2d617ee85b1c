/**
 * What the frame reader refuses: which bytes of a stream it consumes and with what
 * error, types it does not know, counts out of bounds, and messages cut short.
 */
module Refusals {
  import opened Bytes
  import opened Wire
  import opened Messages
  import opened Codec
  import opened Layout

  // --- Parsers do not look at what they leave --------------------------------

  lemma TakeLocal(n: nat, b: Bytes, k: Bytes)
    requires n <= |b|
    ensures Take(n, b + k) == Got(b[..n], b[n..] + k)
  {
    assert (b + k)[..n] == b[..n] && (b + k)[n..] == b[n..] + k;
  }

  lemma U8Local(b: Bytes, k: Bytes)
    requires GetU8(b).Got?
    ensures GetU8(b + k) == Got(GetU8(b).value, GetU8(b).rest + k)
  {
    TakeLocal(1, b, k);
  }

  lemma BoolLocal(b: Bytes, k: Bytes)
    requires GetBool(b).Got?
    ensures GetBool(b + k) == Got(GetBool(b).value, GetBool(b).rest + k)
  {
    U8Local(b, k);
  }

  lemma U16Local(b: Bytes, k: Bytes)
    requires GetU16(b).Got?
    ensures GetU16(b + k) == Got(GetU16(b).value, GetU16(b).rest + k)
  {
    TakeLocal(2, b, k);
  }

  lemma U32Local(b: Bytes, k: Bytes)
    requires GetU32(b).Got?
    ensures GetU32(b + k) == Got(GetU32(b).value, GetU32(b).rest + k)
  {
    TakeLocal(4, b, k);
  }

  lemma StrLocal(b: Bytes, k: Bytes)
    requires GetStr(b).Got?
    ensures GetStr(b + k) == Got(GetStr(b).value, GetStr(b).rest + k)
  {
    hide GetU16;
    U16Local(b, k);
    TakeLocal(GetU16(b).value, GetU16(b).rest, k);
  }

  lemma CountLocal(b: Bytes, k: Bytes)
    requires GetCount(b).Got?
    ensures GetCount(b + k) == Got(GetCount(b).value, GetCount(b).rest + k)
  {
    U32Local(b, k);
  }

  lemma BytesLocal(b: Bytes, k: Bytes)
    requires GetBytes(b).Got?
    ensures GetBytes(b + k) == Got(GetBytes(b).value, GetBytes(b).rest + k)
  {
    hide GetCount;
    CountLocal(b, k);
    TakeLocal(GetCount(b).value, GetCount(b).rest, k);
  }

  lemma {:induction false} StrListLocal(n: nat, b: Bytes, k: Bytes)
    requires GetStrList(n, b).Got?
    ensures GetStrList(n, b + k) == Got(GetStrList(n, b).value, GetStrList(n, b).rest + k)
  {
    hide GetStr;
    if n > 0 {
      StrLocal(b, k);
      StrListLocal(n - 1, GetStr(b).rest, k);
    }
  }

  lemma StrsLocal(b: Bytes, k: Bytes)
    requires GetStrs(b).Got?
    ensures GetStrs(b + k) == Got(GetStrs(b).value, GetStrs(b).rest + k)
  {
    hide GetCount;
    CountLocal(b, k);
    StrListLocal(GetCount(b).value, GetCount(b).rest, k);
  }

  lemma ClientLocal(b: Bytes, k: Bytes)
    requires GetClient(b).Got?
    ensures GetClient(b + k) == Got(GetClient(b).value, GetClient(b).rest + k)
  {
    hide GetBool, GetStr;
    StrLocal(b, k);
    var b1 := GetStr(b).rest;
    BoolLocal(b1, k);
    var b2 := GetBool(b1).rest;
    StrLocal(b2, k);
  }

  lemma {:induction false} ClientListLocal(n: nat, b: Bytes, k: Bytes)
    requires GetClientList(n, b).Got?
    ensures GetClientList(n, b + k) == Got(GetClientList(n, b).value, GetClientList(n, b).rest + k)
  {
    hide GetClient;
    if n > 0 {
      ClientLocal(b, k);
      ClientListLocal(n - 1, GetClient(b).rest, k);
    }
  }

  lemma ClientsLocal(b: Bytes, k: Bytes)
    requires GetClients(b).Got?
    ensures GetClients(b + k) == Got(GetClients(b).value, GetClients(b).rest + k)
  {
    hide GetCount;
    CountLocal(b, k);
    ClientListLocal(GetCount(b).value, GetCount(b).rest, k);
  }

  lemma RowLocal(b: Bytes, k: Bytes)
    requires GetRow(b).Got?
    ensures GetRow(b + k) == Got(GetRow(b).value, GetRow(b).rest + k)
  {
    hide GetClients, GetStr, GetU16, GetU32;
    StrLocal(b, k);
    var b1 := GetStr(b).rest;
    StrLocal(b1, k);
    var b2 := GetStr(b1).rest;
    U16Local(b2, k);
    var b3 := GetU16(b2).rest;
    U16Local(b3, k);
    var b4 := GetU16(b3).rest;
    U32Local(b4, k);
    var b5 := GetU32(b4).rest;
    U32Local(b5, k);
    var b6 := GetU32(b5).rest;
    U32Local(b6, k);
    var b7 := GetU32(b6).rest;
    StrLocal(b7, k);
    var b8 := GetStr(b7).rest;
    ClientsLocal(b8, k);
  }

  lemma {:induction false} RowListLocal(n: nat, b: Bytes, k: Bytes)
    requires GetRowList(n, b).Got?
    ensures GetRowList(n, b + k) == Got(GetRowList(n, b).value, GetRowList(n, b).rest + k)
  {
    hide GetRow;
    if n > 0 {
      RowLocal(b, k);
      RowListLocal(n - 1, GetRow(b).rest, k);
    }
  }

  lemma RowsLocal(b: Bytes, k: Bytes)
    requires GetRows(b).Got?
    ensures GetRows(b + k) == Got(GetRows(b).value, GetRows(b).rest + k)
  {
    hide GetCount;
    CountLocal(b, k);
    RowListLocal(GetCount(b).value, GetCount(b).rest, k);
  }

  lemma AttachLocal(b: Bytes, k: Bytes)
    requires GetAttach(b).Got?
    ensures GetAttach(b + k) == Got(GetAttach(b).value, GetAttach(b).rest + k)
  {
    hide GetBool, GetStr, GetStrs, GetU16, GetU32;
    StrLocal(b, k);
    var b1 := GetStr(b).rest;
    StrsLocal(b1, k);
    var b2 := GetStrs(b1).rest;
    StrsLocal(b2, k);
    var b3 := GetStrs(b2).rest;
    StrLocal(b3, k);
    var b4 := GetStr(b3).rest;
    U16Local(b4, k);
    var b5 := GetU16(b4).rest;
    U16Local(b5, k);
    var b6 := GetU16(b5).rest;
    U16Local(b6, k);
    var b7 := GetU16(b6).rest;
    U16Local(b7, k);
    var b8 := GetU16(b7).rest;
    BoolLocal(b8, k);
    var b9 := GetBool(b8).rest;
    BoolLocal(b9, k);
    var b10 := GetBool(b9).rest;
    U32Local(b10, k);
  }

  lemma CreateLocal(b: Bytes, k: Bytes)
    requires GetCreate(b).Got?
    ensures GetCreate(b + k) == Got(GetCreate(b).value, GetCreate(b).rest + k)
  {
    hide GetBool, GetStr, GetStrs, GetU32;
    StrLocal(b, k);
    var b1 := GetStr(b).rest;
    StrsLocal(b1, k);
    var b2 := GetStrs(b1).rest;
    StrsLocal(b2, k);
    var b3 := GetStrs(b2).rest;
    StrLocal(b3, k);
    var b4 := GetStr(b3).rest;
    U32Local(b4, k);
    var b5 := GetU32(b4).rest;
    BoolLocal(b5, k);
  }

  lemma AttachedLocal(b: Bytes, k: Bytes)
    requires GetAttached(b).Got?
    ensures GetAttached(b + k) == Got(GetAttached(b).value, GetAttached(b).rest + k)
  {
    hide GetBool, GetBytes, GetStr, GetU16, GetU32;
    StrLocal(b, k);
    var b1 := GetStr(b).rest;
    U32Local(b1, k);
    var b2 := GetU32(b1).rest;
    StrLocal(b2, k);
    var b3 := GetStr(b2).rest;
    U16Local(b3, k);
    var b4 := GetU16(b3).rest;
    U16Local(b4, k);
    var b5 := GetU16(b4).rest;
    BytesLocal(b5, k);
    var b6 := GetBytes(b5).rest;
    U32Local(b6, k);
    var b7 := GetU32(b6).rest;
    U32Local(b7, k);
    var b8 := GetU32(b7).rest;
    BoolLocal(b8, k);
    var b9 := GetBool(b8).rest;
    BoolLocal(b9, k);
  }

  lemma DaemonLocal(b: Bytes, k: Bytes)
    requires GetDaemon(b).Got?
    ensures GetDaemon(b + k) == Got(GetDaemon(b).value, GetDaemon(b).rest + k)
  {
    hide GetStr, GetU32;
    U32Local(b, k);
    var b1 := GetU32(b).rest;
    U32Local(b1, k);
    var b2 := GetU32(b1).rest;
    StrLocal(b2, k);
    var b3 := GetStr(b2).rest;
    U32Local(b3, k);
    var b4 := GetU32(b3).rest;
    U32Local(b4, k);
    var b5 := GetU32(b4).rest;
    StrLocal(b5, k);
  }

  lemma InfoLocal(b: Bytes, k: Bytes)
    requires GetInfo(b).Got?
    ensures GetInfo(b + k) == Got(GetInfo(b).value, GetInfo(b).rest + k)
  {
    hide GetClients, GetStr, GetU16, GetU32;
    StrLocal(b, k);
    var b1 := GetStr(b).rest;
    StrLocal(b1, k);
    var b2 := GetStr(b1).rest;
    U16Local(b2, k);
    var b3 := GetU16(b2).rest;
    U16Local(b3, k);
    var b4 := GetU16(b3).rest;
    U32Local(b4, k);
    var b5 := GetU32(b4).rest;
    StrLocal(b5, k);
    var b6 := GetStr(b5).rest;
    ClientsLocal(b6, k);
  }

  lemma StatusResponseLocal(b: Bytes, k: Bytes)
    requires GetStatusResponse(b).Got?
    ensures GetStatusResponse(b + k) == Got(GetStatusResponse(b).value, GetStatusResponse(b).rest + k)
  {
    hide GetDaemon, GetU8, GetInfo;
    DaemonLocal(b, k);
    var b1 := GetDaemon(b).rest;
    U8Local(b1, k);
    if GetU8(b1).value != 0 {
      InfoLocal(GetU8(b1).rest, k);
    }
  }

  lemma ResizeLocal(b: Bytes, k: Bytes)
    requires GetResize(b).Got?
    ensures GetResize(b + k) == Got(GetResize(b).value, GetResize(b).rest + k)
  {
    hide GetU16;
    U16Local(b, k);
    var b1 := GetU16(b).rest;
    U16Local(b1, k);
    var b2 := GetU16(b1).rest;
    U16Local(b2, k);
    var b3 := GetU16(b2).rest;
    U16Local(b3, k);
  }

  lemma SendLocal(b: Bytes, k: Bytes)
    requires GetSend(b).Got?
    ensures GetSend(b + k) == Got(GetSend(b).value, GetSend(b).rest + k)
  {
    hide GetBytes, GetStr;
    StrLocal(b, k);
    var b1 := GetStr(b).rest;
    BytesLocal(b1, k);
  }

  lemma DumpLocal(b: Bytes, k: Bytes)
    requires GetDump(b).Got?
    ensures GetDump(b + k) == Got(GetDump(b).value, GetDump(b).rest + k)
  {
    hide GetStr, GetU8;
    StrLocal(b, k);
    var b1 := GetStr(b).rest;
    U8Local(b1, k);
  }

  lemma SendKeyLocal(b: Bytes, k: Bytes)
    requires GetSendKey(b).Got?
    ensures GetSendKey(b + k) == Got(GetSendKey(b).value, GetSendKey(b).rest + k)
  {
    hide GetStr, GetU32;
    StrLocal(b, k);
    var b1 := GetStr(b).rest;
    U32Local(b1, k);
    var b2 := GetU32(b1).rest;
    U32Local(b2, k);
  }

  lemma KickLocal(b: Bytes, k: Bytes)
    requires GetKick(b).Got?
    ensures GetKick(b + k) == Got(GetKick(b).value, GetKick(b).rest + k)
  {
    hide GetStr;
    StrLocal(b, k);
    var b1 := GetStr(b).rest;
    StrLocal(b1, k);
  }

  lemma ClientsChangedLocal(b: Bytes, k: Bytes)
    requires GetClientsChanged(b).Got?
    ensures GetClientsChanged(b + k) == Got(GetClientsChanged(b).value, GetClientsChanged(b).rest + k)
  {
    hide GetU16;
    U16Local(b, k);
    var b1 := GetU16(b).rest;
    U16Local(b1, k);
    var b2 := GetU16(b1).rest;
    U16Local(b2, k);
  }

  lemma CreatedLocal(b: Bytes, k: Bytes)
    requires GetCreated(b).Got?
    ensures GetCreated(b + k) == Got(GetCreated(b).value, GetCreated(b).rest + k)
  {
    hide GetStr, GetU32;
    StrLocal(b, k);
    var b1 := GetStr(b).rest;
    U32Local(b1, k);
  }

  /** A payload that decodes does so in the same way whatever follows it. */
  lemma BodyLocal(tag: byte, b: Bytes, k: Bytes)
    requires GetBody(tag, b).Got?
    ensures GetBody(tag, b + k) == Got(GetBody(tag, b).value, GetBody(tag, b).rest + k)
  {
    hide GetU32, GetBool, GetStr, GetBytes, GetRows;
    hide GetAttach, GetResize, GetSend, GetDump, GetSendKey, GetCreate, GetKick, GetAttached;
    hide GetClientsChanged, GetStatusResponse, GetCreated;
    match tag {
      case 0x01 => AttachLocal(b, k);
      case 0x02 => BytesLocal(b, k);
      case 0x03 => ResizeLocal(b, k);
      case 0x05 => BoolLocal(b, k);
      case 0x06 => StrLocal(b, k);
      case 0x07 => SendLocal(b, k);
      case 0x08 => DumpLocal(b, k);
      case 0x0A => SendKeyLocal(b, k);
      case 0x0B => CreateLocal(b, k);
      case 0x0C => StrLocal(b, k);
      case 0x0D => KickLocal(b, k);
      case 0x81 => StrLocal(b, k);
      case 0x82 => BytesLocal(b, k);
      case 0x83 => AttachedLocal(b, k);
      case 0x84 => RowsLocal(b, k);
      case 0x85 => U32Local(b, k);
      case 0x86 => BytesLocal(b, k);
      case 0x87 => U32Local(b, k);
      case 0x88 => ClientsChangedLocal(b, k);
      case 0x89 => StatusResponseLocal(b, k);
      case 0x8A => CreatedLocal(b, k);
      case _ =>
    }
  }

  // --- Cut short -------------------------------------------------------------

  /** A frame that ends before its message does is refused, wherever it was cut and whatever its type. */
  lemma CutFrameRefused(m: Message, f: Bytes)
    requires Encodable(m) && |FrameOf(m)| <= 0x100_0000 && f != [] && f < FrameOf(m)
    ensures DecodeFrame(f).Err?
  {
    hide GetBody, PutBody, Encodable, Tag;
    var whole := FrameOf(m);
    var b, k := f[1..], whole[|f|..];
    assert whole == f + k && f[0] == whole[0] == Tag(m);
    assert PutBody(m, []) == whole[1..] == b + k;
    assert |k| > 0;
    BodyBack(m, []);
    if GetBody(Tag(m), b).Got? {
      BodyLocal(Tag(m), b, k);
    }
  }

  /** What the reader consumes, and when it refuses a frame without looking into it. */
  lemma FrameBounds(b: Bytes, n: int)
    requires |b| >= 4 ==> Holds32(b, 0, n)
    ensures var (r, rest) := ReadFrame(b);
            if |b| < 4 then r == Err(if b == [] then Eof else UnexpectedEof) && rest == []
            else if n == 0 then r == Err(EmptyFrame) && rest == b[4..]
            else if n > 0x100_0000 then r == Err(FrameTooLarge) && rest == b[4..]
            else if |b| < 4 + n then r == Err(if |b| == 4 then Eof else UnexpectedEof) && rest == []
            else r == DecodeFrame(b[4..4 + n]) && rest == b[4 + n..]
  {
    hide DecodeFrame;
    ReadersReadPositions(b, n);
    hide U32Of, Holds32;
    assert |b| >= 4 && 0 <= n && |b| >= 4 + n ==> b[4..][..n] == b[4..4 + n] && b[4..][n..] == b[4 + n..];
  }

  /** A stream that ends inside a frame gives one error and nothing else. */
  lemma CutStreamRefused(m: Message, b: Bytes)
    requires Encodable(m) && |FrameOf(m)| <= 0x100_0000 && b < Written(m)
    ensures ReadFrame(b) == (Err(if |b| == 0 || |b| == 4 then Eof else UnexpectedEof), [])
  {
    hide DecodeFrame, FrameOf, Encodable, ReadFrame;
    HeaderHoldsLength(m);
    if |b| >= 4 {
      assert b[..4] == Written(m)[..4];
      assert Holds32(b, 0, |FrameOf(m)|);
    }
    FrameBounds(b, |FrameOf(m)|);
  }

  // --- Types and counts ------------------------------------------------------

  lemma LargeRecords(b: Bytes)
    ensures GetAttach(b).Got? ==> GetAttach(b).value.Attach?
    ensures GetCreate(b).Got? ==> GetCreate(b).value.Create?
    ensures GetAttached(b).Got? ==> GetAttached(b).value.Attached?
    ensures GetStatusResponse(b).Got? ==> GetStatusResponse(b).value.StatusResponse?
  {
    hide GetStr, GetStrs, GetU16, GetU32, GetBool, GetBytes, GetDaemon, GetOptionalInfo;
  }

  lemma SmallRecords(b: Bytes)
    ensures GetResize(b).Got? ==> GetResize(b).value.Resize?
    ensures GetSend(b).Got? ==> GetSend(b).value.Send?
    ensures GetDump(b).Got? ==> GetDump(b).value.Dump?
    ensures GetSendKey(b).Got? ==> GetSendKey(b).value.SendKey?
    ensures GetKick(b).Got? ==> GetKick(b).value.Kick?
    ensures GetClientsChanged(b).Got? ==> GetClientsChanged(b).value.ClientsChanged?
    ensures GetCreated(b).Got? ==> GetCreated(b).value.Created?
  {
    hide GetStr, GetU16, GetU32, GetU8, GetBytes;
  }

  lemma TagsDecoded(tag: byte, b: Bytes)
    requires GetBody(tag, b).Got?
    ensures Tag(GetBody(tag, b).value) == tag
  {
    hide GetU32, GetI32, GetBool, GetStr, GetBytes, GetRows;
    hide GetAttach, GetResize, GetSend, GetDump, GetSendKey, GetCreate, GetKick, GetAttached;
    hide GetClientsChanged, GetStatusResponse, GetCreated;
    match tag {
      case 0x01 => LargeRecords(b);
      case 0x03 => SmallRecords(b);
      case 0x07 => SmallRecords(b);
      case 0x08 => SmallRecords(b);
      case 0x0A => SmallRecords(b);
      case 0x0B => LargeRecords(b);
      case 0x0D => SmallRecords(b);
      case 0x83 => LargeRecords(b);
      case 0x88 => SmallRecords(b);
      case 0x89 => LargeRecords(b);
      case 0x8A => SmallRecords(b);
      case _ =>
    }
  }

  /** A frame decodes to a message of the type its first byte says; the other 232 bytes are no types. */
  lemma TypesDecoded(f: Bytes)
    requires f != []
    ensures DecodeFrame(f).Ok? ==> Tag(DecodeFrame(f).value) == f[0]
    ensures !(0x01 <= f[0] <= 0x0D || 0x80 <= f[0] <= 0x8A) ==> DecodeFrame(f) == Err(UnknownType)
  {
    hide GetAttach, GetResize, GetSend, GetDump, GetSendKey, GetCreate, GetKick, GetAttached, Tag;
    hide GetClientsChanged, GetStatusResponse, GetCreated, GetRows, GetBytes, GetStr;
    if GetBody(f[0], f[1..]).Got? {
      TagsDecoded(f[0], f[1..]);
    }
  }

  /** An announced length or count of more than 16 Mi is refused before anything is read for it. */
  lemma CountsBounded(b: Bytes, n: int)
    requires Holds32(b, 0, n) && n > 0x100_0000
    ensures GetBytes(b) == Failed(LimitExceeded, b[4..]) && GetStrs(b) == Failed(LimitExceeded, b[4..])
    ensures GetClients(b) == Failed(LimitExceeded, b[4..]) && GetRows(b) == Failed(LimitExceeded, b[4..])
  {
    ReadersReadPositions(b, n);
    assert GetCount(b) == Failed(LimitExceeded, b[4..]);
    hide GetCount, Holds32;
  }
}
