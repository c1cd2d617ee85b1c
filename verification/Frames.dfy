/**
 * Several goroutines write messages to one connection. A message is encoded
 * before the lock is taken; the bytes then go out in pieces of any size, and
 * the other writers run in between.
 */
module Frames {
  import opened Bytes
  import opened Wire
  import opened Messages
  import opened Codec

  datatype WriterPc =
    | Ready
    | Encoded(msg: Message)              // waiting for the lock
    | Holding(msg: Message, sent: nat)   // `sent` bytes of the frame are out

  datatype Entry = Entry(writer: nat, msg: Message)

  /**
   * `done` lists the calls that returned without an error, `refused` those whose
   * message could not be encoded; `intact` the calls done before any write failed.
   */
  datatype State = State(
    writers: seq<WriterPc>,
    lock: Option<nat>,
    stream: Bytes,
    done: seq<Entry>,
    refused: seq<Entry>,
    intact: seq<Entry>,
    failed: bool)

  datatype Op =
    | Call(msg: Message)
    | Lock
    | WriteSome(n: nat)
    | Unlock
    | WriteFails(n: nat)                 // the write fails after `n` more bytes

  function Init(n: nat): State
  {
    State(seq(n, _ => Ready), None, [], [], [], [], false)
  }

  predicate Enabled(s: State, w: nat, op: Op)
  {
    && w < |s.writers|
    && var pc := s.writers[w];
       match op
       case Call(_) => pc.Ready?
       case Lock => pc.Encoded? && s.lock.None?
       case WriteSome(n) => pc.Holding? && 0 < n && pc.sent + n <= |Written(pc.msg)|
       case Unlock => pc.Holding? && pc.sent == |Written(pc.msg)|
       case WriteFails(n) => pc.Holding? && pc.sent + n <= |Written(pc.msg)|
  }

  function Apply(s: State, w: nat, op: Op): State
    requires Enabled(s, w, op)
  {
    var pc := s.writers[w];
    match op
    case Call(m) =>
      if Encodable(m) then s.(writers := s.writers[w := Encoded(m)])
      else s.(refused := s.refused + [Entry(w, m)])
    case Lock => s.(writers := s.writers[w := Holding(pc.msg, 0)], lock := Some(w))
    case WriteSome(n) =>
      s.(writers := s.writers[w := Holding(pc.msg, pc.sent + n)],
         stream := s.stream + Written(pc.msg)[pc.sent..pc.sent + n])
    case Unlock =>
      s.(writers := s.writers[w := Ready], lock := None, done := s.done + [Entry(w, pc.msg)],
         intact := if s.failed then s.intact else s.intact + [Entry(w, pc.msg)])
    case WriteFails(n) =>
      s.(writers := s.writers[w := Ready], lock := None, failed := true,
         stream := s.stream + Written(pc.msg)[pc.sent..pc.sent + n])
  }

  datatype Label = Label(writer: nat, op: Op)

  predicate Run(s: State, labels: seq<Label>, t: State)
    decreases |labels|
  {
    if labels == [] then s == t
    else Enabled(s, labels[0].writer, labels[0].op)
         && Run(Apply(s, labels[0].writer, labels[0].op), labels[1..], t)
  }

  ghost predicate Reachable(s: State)
  {
    exists n, labels :: Run(Init(n), labels, s)
  }

  // --- The invariant ---------------------------------------------------------

  function EntryBytes(e: Entry): Bytes
  {
    Written(e.msg)
  }

  /** The part of the lock holder's frame that is out. */
  function InProgress(s: State): Bytes
  {
    if s.lock.Some? && s.lock.value < |s.writers| && s.writers[s.lock.value].Holding? then
      var pc := s.writers[s.lock.value];
      if pc.sent <= |Written(pc.msg)| then Written(pc.msg)[..pc.sent] else []
    else []
  }

  ghost predicate Exclusive(s: State)
  {
    && (s.lock.Some? ==> s.lock.value < |s.writers| && s.writers[s.lock.value].Holding?)
    && (forall w :: 0 <= w < |s.writers| && s.writers[w].Holding? ==> s.lock == Some(w))
  }

  ghost predicate AllEncodable(s: State)
  {
    && (forall e <- s.done :: Encodable(e.msg))
    && (forall e <- s.intact :: Encodable(e.msg))
    && (forall e <- s.refused :: !Encodable(e.msg))
    && (forall w :: 0 <= w < |s.writers| && !s.writers[w].Ready? ==> Encodable(s.writers[w].msg))
  }

  predicate Whole(s: State)
  {
    && Cat(EntryBytes, s.intact) <= s.stream
    && (!s.failed ==> s.intact == s.done && s.stream == Cat(EntryBytes, s.done) + InProgress(s))
  }

  ghost predicate Inv(s: State)
  {
    Exclusive(s) && AllEncodable(s) && Whole(s)
  }

  lemma Extended(b: Bytes, i: nat, j: nat)
    requires i <= j <= |b|
    ensures b[..i] + b[i..j] == b[..j]
  {
  }

  lemma PrefixExtended(a: Bytes, b: Bytes, c: Bytes)
    requires a <= b
    ensures a <= b + c
  {
  }

  lemma WriteKeepsWhole(s: State, w: nat, n: nat)
    requires Exclusive(s) && Whole(s) && Enabled(s, w, WriteSome(n))
    ensures Whole(Apply(s, w, WriteSome(n)))
  {
    hide Written, Cat;
    var pc := s.writers[w];
    var b := Written(pc.msg);
    Extended(b, pc.sent, pc.sent + n);
    PrefixExtended(Cat(EntryBytes, s.intact), s.stream, b[pc.sent..pc.sent + n]);
    if !s.failed {
      assert (Cat(EntryBytes, s.done) + b[..pc.sent]) + b[pc.sent..pc.sent + n]
          == Cat(EntryBytes, s.done) + b[..pc.sent + n];
    }
  }

  lemma FailKeepsWhole(s: State, w: nat, n: nat)
    requires Whole(s) && Enabled(s, w, WriteFails(n))
    ensures Whole(Apply(s, w, WriteFails(n)))
  {
    hide Written, Cat;
    var pc := s.writers[w];
    PrefixExtended(Cat(EntryBytes, s.intact), s.stream, Written(pc.msg)[pc.sent..pc.sent + n]);
  }

  lemma UnlockKeepsWhole(s: State, w: nat)
    requires Exclusive(s) && Whole(s) && Enabled(s, w, Unlock)
    ensures Whole(Apply(s, w, Unlock))
  {
    var pc := s.writers[w];
    assert InProgress(s) == Written(pc.msg);
    if !s.failed {
      CatSnoc(EntryBytes, s.done, Entry(w, pc.msg));
    }
  }

  lemma StepExclusive(s: State, w: nat, op: Op)
    requires Exclusive(s) && Enabled(s, w, op)
    ensures Exclusive(Apply(s, w, op))
  {
    hide Written, Encodable;
  }

  lemma StepEncodable(s: State, w: nat, op: Op)
    requires AllEncodable(s) && Enabled(s, w, op)
    ensures AllEncodable(Apply(s, w, op))
  {
    hide Written, Encodable;
  }

  lemma StepWhole(s: State, w: nat, op: Op)
    requires Exclusive(s) && Whole(s) && Enabled(s, w, op)
    ensures Whole(Apply(s, w, op))
  {
    hide Written, Encodable;
    match op {
      case Call(_) => assert InProgress(Apply(s, w, op)) == InProgress(s);
      case Lock => assert InProgress(Apply(s, w, op)) == InProgress(s);
      case WriteSome(n) => WriteKeepsWhole(s, w, n);
      case Unlock => UnlockKeepsWhole(s, w);
      case WriteFails(n) => FailKeepsWhole(s, w, n);
    }
  }

  lemma StepInv(s: State, w: nat, op: Op)
    requires Inv(s) && Enabled(s, w, op)
    ensures Inv(Apply(s, w, op))
  {
    hide Exclusive, AllEncodable, Whole, Apply;
    StepExclusive(s, w, op);
    StepEncodable(s, w, op);
    StepWhole(s, w, op);
  }

  lemma {:induction false} RunInv(s: State, labels: seq<Label>, t: State)
    requires Inv(s) && Run(s, labels, t)
    ensures Inv(t)
    decreases |labels|
  {
    if labels != [] {
      StepInv(s, labels[0].writer, labels[0].op);
      RunInv(Apply(s, labels[0].writer, labels[0].op), labels[1..], t);
    }
  }

  lemma ReachableInv(s: State)
    requires Reachable(s)
    ensures Inv(s)
  {
    var n, labels :| Run(Init(n), labels, s);
    assert Inv(Init(n));
    RunInv(Init(n), labels, s);
  }

  // --- Theorems --------------------------------------------------------------

  /** As long as no write fails, the stream is whole frames, one per finished call, then part of one frame. */
  lemma FrameAtomicity(s: State)
    requires Reachable(s) && !s.failed
    ensures s.stream == Cat(EntryBytes, s.done) + InProgress(s)
    ensures s.lock.None? ==> InProgress(s) == []
    ensures s.lock.Some? ==> s.lock.value < |s.writers| && s.writers[s.lock.value].Holding?
                             && InProgress(s) <= Written(s.writers[s.lock.value].msg)
  {
    hide Reachable, AllEncodable, Written, Cat;
    ReachableInv(s);
  }

  function Sent(entries: seq<Entry>): (ms: seq<Message>)
    ensures |ms| == |entries| && forall i :: 0 <= i < |ms| ==> ms[i] == entries[i].msg
  {
    seq(|entries|, i requires 0 <= i < |entries| => entries[i].msg)
  }

  lemma {:induction false} SameBytes(entries: seq<Entry>)
    requires forall e <- entries :: Encodable(e.msg)
    ensures forall m <- Sent(entries) :: Encodable(m)
    ensures Cat(EntryBytes, entries) == Cat(Framed, FramesOf(Sent(entries)))
  {
    if entries != [] {
      SameBytes(entries[1..]);
      assert Sent(entries)[1..] == Sent(entries[1..]);
      assert FramesOf(Sent(entries))[1..] == FramesOf(Sent(entries[1..]));
    }
  }

  /**
   * With no write error and nobody writing, the stream is the frames of the calls that
   * could be encoded, and of these alone: a refused call left nothing.
   */
  lemma RefusedWriteNothing(s: State)
    requires Reachable(s) && !s.failed && s.lock.None?
    ensures forall e <- s.refused :: !Encodable(e.msg)
    ensures forall m <- Sent(s.done) :: Encodable(m)
    ensures s.stream == Cat(Framed, FramesOf(Sent(s.done)))
  {
    hide Reachable, Written, FrameOf, Encodable, Framed, Cat;
    FrameAtomicity(s);
    ReachableInv(s);
    SameBytes(s.done);
    assert Cat(EntryBytes, s.done) + [] == Cat(EntryBytes, s.done);
  }

  predicate Readable(m: Message)
  {
    Encodable(m) && |FrameOf(m)| <= MAX_FRAME
  }

  /** A stream that starts with the frames of some calls is read as their messages. */
  lemma PrefixRead(entries: seq<Entry>, stream: Bytes)
    requires Cat(EntryBytes, entries) <= stream && forall e <- entries :: Readable(e.msg)
    ensures var (read, left) := ReadMany(|entries|, stream);
            && |read| == |entries| && stream == Cat(EntryBytes, entries) + left
            && (forall i :: 0 <= i < |read| ==> read[i] == Ok(entries[i].msg))
  {
    hide Written, FrameOf, Encodable, Framed, ReadMany, Cat;
    SameBytes(entries);
    var bytes := Cat(EntryBytes, entries);
    var rest := stream[|bytes|..];
    assert stream == bytes + rest;
    forall m | m in Sent(entries) ensures Readable(m) {
      var i :| 0 <= i < |entries| && Sent(entries)[i] == m;
      assert entries[i] in entries;
    }
    MessagesBack(Sent(entries), rest);
  }

  /**
   * However the writers interleave, and whatever fails later, a reader gets exactly
   * the messages whose calls finished before the first failure, in the order of the lock.
   */
  lemma ReadInLockOrder(s: State)
    requires Reachable(s) && forall e <- s.intact :: Readable(e.msg)
    ensures var (read, left) := ReadMany(|s.intact|, s.stream);
            && |read| == |s.intact|
            && (forall i :: 0 <= i < |read| ==> read[i] == Ok(s.intact[i].msg))
            && (!s.failed ==> s.intact == s.done && left == InProgress(s))
  {
    hide Reachable, Readable, InProgress, ReadMany, Cat;
    ReachableInv(s);
    PrefixRead(s.intact, s.stream);
    if !s.failed {
      var left := ReadMany(|s.intact|, s.stream).1;
      assert (Cat(EntryBytes, s.done) + left)[|Cat(EntryBytes, s.done)|..] == left;
    }
  }
}
