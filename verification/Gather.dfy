/** The gather stage: raw PTY reads become batches. */
module Gather {
  import opened Bytes
  import opened Session

  const BATCH_THRESHOLD := 1024

  predicate Interactive(chunks: seq<Bytes>)
  {
    forall i :: 0 <= i < |chunks| ==> |chunks[i]| < BATCH_THRESHOLD
  }

  lemma FlatSnoc(parts: seq<Bytes>, b: Bytes)
    ensures Flat(parts + [b]) == Flat(parts) + b
  {
    CatSnoc(Same, parts, b);
  }

  lemma FlatTake(chunks: seq<Bytes>, i: nat)
    requires i < |chunks|
    ensures Flat(chunks[..i + 1]) == Flat(chunks[..i]) + chunks[i]
  {
    assert chunks[..i + 1] == chunks[..i] + [chunks[i]];
    FlatSnoc(chunks[..i], chunks[i]);
  }

  lemma FlatPrefix(chunks: seq<Bytes>, i: nat)
    requires i <= |chunks|
    ensures Flat(chunks[..i]) <= Flat(chunks)
  {
    assert chunks == chunks[..i] + chunks[i..];
    CatAppend(Same, chunks[..i], chunks[i..]);
  }

  /** What is out, and what is in hand, is what came in; so what is out is a prefix of all. */
  lemma OutIsPrefix(out: seq<Bytes>, hand: Bytes, chunks: seq<Bytes>, next: nat)
    requires next <= |chunks| && Flat(out) + hand == Flat(chunks[..next])
    ensures Flat(out) <= Flat(chunks)
    ensures next == |chunks| && hand == [] ==> Flat(out) == Flat(chunks)
  {
    FlatPrefix(chunks, next);
    assert chunks[..|chunks|] == chunks;
  }

  /**
   * Fills a batch from the channel of reads until it is full, the timer fires,
   * the channel is closed, or done is; a read that does not fit is split.
   */
  method FillBatch(chunks: seq<Bytes>, start: nat, first: Bytes)
    returns (batch: Bytes, pending: Bytes, next: nat, readsClosed: bool, stopped: bool)
    requires start <= |chunks| && first != []
    ensures start <= next <= |chunks| && (readsClosed ==> next == |chunks|)
    ensures batch + pending == first + Flat(chunks[start..next])
    ensures |batch| <= PTY_BATCH && (next == start ==> |pending| < |first|)
  {
    next, readsClosed, stopped := start, false, false;
    if |first| > PTY_BATCH {
      batch, pending := first[..PTY_BATCH], first[PTY_BATCH..];
    } else {
      batch, pending := first, [];
    }
    assert Flat(chunks[start..start]) == [];
    while |batch| < PTY_BATCH && |pending| == 0 && !readsClosed
      invariant start <= next <= |chunks| && (readsClosed ==> next == |chunks|)
      invariant |batch| <= PTY_BATCH && batch + pending == first + Flat(chunks[start..next])
      invariant next == start ==> |pending| < |first|
      decreases |chunks| - next, !readsClosed
    {
      assert batch + pending == batch;
      if * {
        stopped := true;
        return;
      }
      if * {
        return;
      }
      if next == |chunks| {
        readsClosed := true;
        return;
      }
      var more := chunks[next];
      assert chunks[start..next + 1] == chunks[start..next] + [more];
      FlatSnoc(chunks[start..next], more);
      next := next + 1;
      var remaining := PTY_BATCH - |batch|;
      if |more| > remaining {
        assert batch + more == (batch + more[..remaining]) + more[remaining..];
        batch, pending := batch + more[..remaining], more[remaining..];
        return;
      }
      batch := batch + more;
      assert batch + pending == batch;
    }
  }

  lemma FilledFrom(out: seq<Bytes>, first: Bytes, hand: Bytes, chunks: seq<Bytes>, start: nat, next: nat)
    requires start <= next <= |chunks|
    requires Flat(out) + first == Flat(chunks[..start]) && hand == first + Flat(chunks[start..next])
    ensures Flat(out) + hand == Flat(chunks[..next])
    ensures Flat(out) <= Flat(chunks)
  {
    assert chunks[..next] == chunks[..start] + chunks[start..next];
    CatAppend(Same, chunks[..start], chunks[start..next]);
    OutIsPrefix(out, hand, chunks, next);
  }

  /**
   * The channel of reads delivers `chunks` and is then closed. Wherever the code
   * selects, done may have been closed (then it stops at once), and while it fills
   * a batch the timer may fire.
   */
  method GatherPTYReads(chunks: seq<Bytes>) returns (batches: seq<Bytes>, stopped: bool)
    ensures Flat(batches) <= Flat(chunks)
    ensures !stopped ==> Flat(batches) == Flat(chunks)
    ensures forall i :: 0 <= i < |batches| ==> |batches[i]| <= 0x1_0000
    ensures (forall i :: 0 <= i < |chunks| ==> |chunks[i]| < 1024) ==>
              batches <= chunks && (!stopped ==> batches == chunks)
  {
    batches := [];
    var next: nat, pending: Bytes, readsClosed := 0, [], false;
    while true
      invariant next <= |chunks| && (readsClosed ==> next == |chunks|)
      invariant Flat(batches) + pending == Flat(chunks[..next])
      invariant forall i :: 0 <= i < |batches| ==> |batches[i]| <= PTY_BATCH
      invariant Interactive(chunks) ==> pending == [] && batches == chunks[..next]
      decreases |chunks| - next, |pending|
    {
      OutIsPrefix(batches, pending, chunks, next);
      var first;
      if |pending| > 0 {
        first, pending := pending, [];
      } else {
        if readsClosed {
          return batches, false;
        }
        if * {
          return batches, true;
        }
        if next == |chunks| {
          return batches, false;
        }
        FlatTake(chunks, next);
        first, next := chunks[next], next + 1;
      }
      OutIsPrefix(batches, first, chunks, next);

      if |first| < BATCH_THRESHOLD {
        if * {
          return batches, true;
        }
        FlatSnoc(batches, first);
        batches := batches + [first];
        continue;
      }

      var batch, start := [], next;
      batch, pending, next, readsClosed, stopped := FillBatch(chunks, start, first);
      FilledFrom(batches, first, batch + pending, chunks, start, next);
      assert Flat(batches) + (batch + pending) == (Flat(batches) + batch) + pending;
      if * {
        stopped := true;
      }
      if stopped {
        return batches, true;
      }
      FlatSnoc(batches, batch);
      batches := batches + [batch];
    }
  }
}
