/** The format of a saved session: magic, version, size, time, and a terminal snapshot. */
module StateFile {
  import opened Bytes
  import opened Wire

  const MAGIC: Bytes := [0x48, 0x54, 0x53, 0x54]   // HTST
  const VERSION: byte := 2
  const MAX_SNAPSHOT := 128 * 0x10_0000
  const FIXED := 21

  type u64 = v: int | 0 <= v < 0x1_0000_0000_0000_0000
  type i64 = v: int | -0x8000_0000_0000_0000 <= v < 0x8000_0000_0000_0000

  /** A moment: whole seconds since the epoch, and nanoseconds. */
  datatype Time = Time(unix: i64, nanos: nat)

  datatype SessionState = SessionState(cols: u16, rows: u16, savedAt: Time, snapshot: Bytes)

  predicate Storable(s: SessionState)
  {
    1 <= |s.snapshot| <= MAX_SNAPSHOT
  }

  /** A file keeps no fraction of a second. */
  function WholeSeconds(s: SessionState): SessionState
  {
    s.(savedAt := s.savedAt.(nanos := 0))
  }

  function Unsigned64(v: i64): u64
  {
    if v < 0 then v + 0x1_0000_0000_0000_0000 else v
  }

  function Signed64(v: u64): i64
  {
    if v >= 0x8000_0000_0000_0000 then v - 0x1_0000_0000_0000_0000 else v
  }

  function U64Bytes(v: u64): (h: Bytes)
    ensures |h| == 8 && U64Of(h) == v
  {
    var hi, lo := U32Bytes(v / 0x1_0000_0000), U32Bytes(v % 0x1_0000_0000);
    TakeBack(hi, lo);
    hi + lo
  }

  function U64Of(h: Bytes): u64
    requires |h| == 8
  {
    var hi: int, lo: int := U32Of(h[..4]), U32Of(h[4..]);
    0x1_0000_0000 * hi + lo
  }

  function GetU64(b: Bytes): Parsed<u64>
  {
    var (h, rest) :- Take(8, b);
    Got(U64Of(h), rest)
  }

  function PutU64(v: u64, k: Bytes): (r: Bytes)
    ensures GetU64(r) == Got(v, k) && |r| == |k| + 8
  {
    TakeBack(U64Bytes(v), k);
    U64Bytes(v) + k
  }

  function GetFields(b: Bytes): Parsed<SessionState>
  {
    var (version, b1) :- GetU8(b);
    if version != VERSION then Failed(BadVersion, b1) else
    var (cols, b2) :- GetU16(b1);
    var (rows, b3) :- GetU16(b2);
    var (savedAt, b4) :- GetU64(b3);
    var (length, b5) :- GetU32(b4);
    if length == 0 then Failed(EmptySnapshot, b5)
    else if length > MAX_SNAPSHOT then Failed(SnapshotTooLarge, b5)
    else
      var (snapshot, b6) :- Take(length, b5);
      Got(SessionState(cols, rows, Time(Signed64(savedAt), 0), snapshot), b6)
  }

  function PutFields(s: SessionState, k: Bytes): (r: Bytes)
    requires Storable(s)
    ensures GetFields(r) == Got(WholeSeconds(s), k) && |r| == |k| + |s.snapshot| + FIXED - 4
  {
    TakeBack(s.snapshot, k);
    PutU8(VERSION, PutU16(s.cols, PutU16(s.rows, PutU64(Unsigned64(s.savedAt.unix),
      PutU32(|s.snapshot|, s.snapshot + k)))))
  }

  function Encode(s: SessionState): Outcome<Bytes>
  {
    if s.snapshot == [] then Err(EmptySnapshot)
    else if |s.snapshot| > MAX_SNAPSHOT then Err(SnapshotTooLarge)
    else Ok(MAGIC + PutFields(s, []))
  }

  function Decode(data: Bytes): Outcome<SessionState>
  {
    if |data| < 4 then Err(UnexpectedEof)
    else if data[..4] != MAGIC then Err(BadMagic)
    else match GetFields(data[4..])
      case Got(s, _) => Ok(s)
      case Failed(e, _) => Err(e)
  }

  // --- The fixed-width fields have one representation ------------------------

  lemma TakeCanonical(n: nat, b: Bytes)
    requires Take(n, b).Got?
    ensures b == Take(n, b).value + Take(n, b).rest && |Take(n, b).value| == n
  {
  }

  lemma U8Canonical(b: Bytes)
    requires GetU8(b).Got?
    ensures b == PutU8(GetU8(b).value, GetU8(b).rest)
  {
    TakeCanonical(1, b);
  }

  lemma U16Canonical(b: Bytes)
    requires GetU16(b).Got?
    ensures b == PutU16(GetU16(b).value, GetU16(b).rest)
  {
    TakeCanonical(2, b);
    assert U16Bytes(U16Of(b[..2])) == b[..2];
  }

  lemma HalvesBack(hi: u16, lo: u16)
    ensures (0x1_0000 * hi + lo) / 0x1_0000 == hi && (0x1_0000 * hi + lo) % 0x1_0000 == lo
  {
  }

  lemma U32BytesBack(h: Bytes)
    requires |h| == 4
    ensures U32Bytes(U32Of(h)) == h
  {
    var hi, lo := U16Of(h[..2]), U16Of(h[2..]);
    assert U16Bytes(hi) == h[..2] && U16Bytes(lo) == h[2..];
    hide U16Of, U16Bytes;
    HalvesBack(hi, lo);
    assert h[..2] + h[2..] == h;
  }

  lemma U32Canonical(b: Bytes)
    requires GetU32(b).Got?
    ensures b == PutU32(GetU32(b).value, GetU32(b).rest)
  {
    TakeCanonical(4, b);
    U32BytesBack(b[..4]);
  }

  lemma WordsBack(hi: u32, lo: u32)
    ensures (0x1_0000_0000 * hi + lo) / 0x1_0000_0000 == hi && (0x1_0000_0000 * hi + lo) % 0x1_0000_0000 == lo
  {
  }

  lemma U64Canonical(b: Bytes)
    requires GetU64(b).Got?
    ensures b == PutU64(GetU64(b).value, GetU64(b).rest)
  {
    hide U32Of, U32Bytes;
    TakeCanonical(8, b);
    var h := b[..8];
    U32BytesBack(h[..4]);
    U32BytesBack(h[4..]);
    WordsBack(U32Of(h[..4]), U32Of(h[4..]));
    assert h[..4] + h[4..] == h;
  }

  lemma FieldsCanonical(b: Bytes)
    requires GetFields(b).Got?
    ensures var s := GetFields(b).value;
            Storable(s) && s == WholeSeconds(s) && b == PutFields(s, GetFields(b).rest)
  {
    hide GetU8, GetU16, GetU64, GetU32, Take, PutU8, PutU16, PutU32, PutU64;
    U8Canonical(b);
    var b1 := GetU8(b).rest;
    U16Canonical(b1);
    var b2 := GetU16(b1).rest;
    U16Canonical(b2);
    var b3 := GetU16(b2).rest;
    U64Canonical(b3);
    var b4 := GetU64(b3).rest;
    U32Canonical(b4);
    TakeCanonical(GetU32(b4).value, GetU32(b4).rest);
  }

  lemma FieldsAppend(s: SessionState, a: Bytes, k: Bytes)
    requires Storable(s)
    ensures PutFields(s, a) + k == PutFields(s, a + k)
  {
    hide U16Bytes, U32Bytes, U64Bytes, GetU8, GetU16, GetU32, GetU64, GetFields, Take;
    var d := s.snapshot + a;
    assert d + k == s.snapshot + (a + k);
    var e := PutU32(|s.snapshot|, d);
    assert e + k == PutU32(|s.snapshot|, d + k);
    var f := PutU64(Unsigned64(s.savedAt.unix), e);
    assert f + k == PutU64(Unsigned64(s.savedAt.unix), e + k);
    var g := PutU16(s.rows, f);
    assert g + k == PutU16(s.rows, f + k);
    var h := PutU16(s.cols, g);
    assert h + k == PutU16(s.cols, g + k);
    assert PutU8(VERSION, h) + k == PutU8(VERSION, h + k);
  }

  // --- Reading undoes writing ------------------------------------------------

  /** A saved session is read back, up to the fraction of its second; bytes after it are ignored. */
  lemma RoundTrip(s: SessionState, k: Bytes)
    requires Storable(s)
    ensures Encode(s).Ok? && |Encode(s).value| == FIXED + |s.snapshot|
    ensures Decode(Encode(s).value + k) == Ok(WholeSeconds(s))
  {
    hide GetFields, PutFields;
    var body := PutFields(s, []);
    FieldsAppend(s, [], k);
    assert [] + k == k;
    assert (MAGIC + body) + k == MAGIC + (body + k);
    TakeBack(MAGIC, body + k);
  }

  lemma Reassembled(data: Bytes, body: Bytes, k: Bytes)
    requires |data| >= 4 && data[..4] == MAGIC && data[4..] == body + k
    ensures MAGIC + body <= data
  {
    assert data == data[..4] + data[4..] == (MAGIC + body) + k;
  }

  /**
   * A file is accepted as a state exactly when it starts with the encoding of that
   * state. So no proper prefix of an encoding is accepted, and whatever was read can
   * be written again, byte for byte.
   */
  lemma AcceptedExactly(data: Bytes, s: SessionState)
    ensures Decode(data) == Ok(s) <==> s == WholeSeconds(s) && Encode(s).Ok? && Encode(s).value <= data
  {
    hide GetFields, PutFields;
    if Decode(data) == Ok(s) {
      FieldsCanonical(data[4..]);
      var k := GetFields(data[4..]).rest;
      FieldsAppend(s, [], k);
      assert [] + k == k;
      Reassembled(data, PutFields(s, []), k);
    } else if Encode(s).Ok? && Encode(s).value <= data {
      var k := data[|Encode(s).value|..];
      assert data == Encode(s).value + k;
      RoundTrip(s, k);
    }
  }

  lemma PrefixesRejected(s: SessionState, data: Bytes)
    requires Encode(s).Ok? && data < Encode(s).value
    ensures Decode(data).Err?
  {
    hide GetFields, PutFields, Decode;
    var whole := Encode(s).value;
    RoundTrip(s, []);
    assert whole + [] == whole;
    if Decode(data).Ok? {
      var t := Decode(data).value;
      AcceptedExactly(data, t);
      RoundTrip(t, []);
      assert Encode(t).value <= whole;
      AcceptedExactly(whole, t);
    }
  }

  // --- As the daemon does it -------------------------------------------------

  method EncodeState(s: SessionState) returns (r: Outcome<Bytes>)
    ensures r == Encode(s)
  {
    hide GetU8, GetU16, GetU32, GetU64, GetFields, Take, U16Bytes, U32Bytes, U64Bytes;
    if |s.snapshot| == 0 {
      return Err(EmptySnapshot);
    }
    if |s.snapshot| > MAX_SNAPSHOT {
      return Err(SnapshotTooLarge);
    }
    var seconds := Unsigned64(s.savedAt.unix);
    ghost var afterSeconds := PutU32(|s.snapshot|, s.snapshot + []);
    ghost var afterRows := PutU64(seconds, afterSeconds);
    ghost var afterCols := PutU16(s.rows, afterRows);
    ghost var afterVersion := PutU16(s.cols, afterCols);
    ghost var whole := MAGIC + PutU8(VERSION, afterVersion);
    var buf := MAGIC;
    buf := buf + [VERSION];
    assert buf + afterVersion == whole;
    buf := buf + U16Bytes(s.cols);
    assert buf + afterCols == whole;
    buf := buf + U16Bytes(s.rows);
    assert buf + afterRows == whole;
    buf := buf + U64Bytes(seconds);
    assert buf + afterSeconds == whole;
    buf := buf + U32Bytes(|s.snapshot|);
    assert buf + (s.snapshot + []) == whole;
    buf := buf + s.snapshot;
    assert buf == whole;
    r := Ok(buf);
  }

  method DecodeState(data: Bytes) returns (r: Outcome<SessionState>)
    ensures r == Decode(data)
  {
    if |data| < 4 {
      return Err(UnexpectedEof);
    }
    if data[..4] != MAGIC {
      return Err(BadMagic);
    }
    var dec := data[4..];
    if |dec| < 1 {
      return Err(ShortRead(dec));
    }
    var version := dec[0];
    dec := dec[1..];
    if version != VERSION {
      return Err(BadVersion);
    }
    if |dec| < 2 {
      return Err(ShortRead(dec));
    }
    var cols := U16Of(dec[..2]);
    dec := dec[2..];
    if |dec| < 2 {
      return Err(ShortRead(dec));
    }
    var rows := U16Of(dec[..2]);
    dec := dec[2..];
    if |dec| < 8 {
      return Err(ShortRead(dec));
    }
    var seconds := U64Of(dec[..8]);
    dec := dec[8..];
    if |dec| < 4 {
      return Err(ShortRead(dec));
    }
    var length := U32Of(dec[..4]);
    dec := dec[4..];
    if length == 0 {
      return Err(EmptySnapshot);
    }
    if length > MAX_SNAPSHOT {
      return Err(SnapshotTooLarge);
    }
    if |dec| < length {
      return Err(ShortRead(dec));
    }
    var snapshot := dec[..length];
    r := Ok(SessionState(cols, rows, Time(Signed64(seconds), 0), snapshot));
  }
}
