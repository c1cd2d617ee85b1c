/** A run after which the terminal has not seen all accepted output: a stop finds a chunk waiting for the feeder. */
module SessionLoss {
  import opened Bytes
  import opened Sizes
  import opened Session
  import opened SessionRuns
  const CHUNK: Bytes := [7]

  /** No client, and one chunk accepted but not handed to the feeder. */
  function HoldingChunk(pc: LoopPc): State
  {
    Init(Smallest, 80, 24).(
      loop := LoopVars(pc, [], [], [], None, Some(Item(1, 0, CHUNK)), 1),
      feed := FeedVars([], false, Waiting, {}, [CHUNK], multiset{}),
      pty := PtyVars([], false, None, CHUNK),
      accepted := CHUNK)
  }

  /** The same after a stop was handled. */
  function Stopped(pc: LoopPc, feeder: FeederPc): State
  {
    HoldingChunk(pc).(
      loop := LoopVars(pc, [], [], [], None, None, 1),
      feed := FeedVars([], true, feeder, {1}, [CHUNK], multiset{0}),
      lost := CHUNK)
  }

  lemma Starts()
    ensures Reachable(Init(Smallest, 80, 24))
  {
    assert Run(Init(Smallest, 80, 24), [], Init(Smallest, 80, 24));
  }

  /** The chunk is taken, and its delivery to nobody is under way. */
  function Offering(): State
  {
    HoldingChunk(Offer(true)).(loop := HoldingChunk(Offer(true)).loop.(output := Some(CHUNK)))
  }

  /** The chunk is on its way from the process. */
  function Coming(pc: LoopPc): State
  {
    Goto(Init(Smallest, 80, 24), pc).(pty := PtyVars([CHUNK], false, None, CHUNK))
  }

  lemma ChunkProduced()
    ensures Reachable(Coming(TOP))
  {
    hide Reachable;
    Starts();
    ReachOne(Init(Smallest, 80, 24), Env(Produce(CHUNK)));
    assert [] + [CHUNK] == [CHUNK] && [] + CHUNK == CHUNK;
    assert Apply(Init(Smallest, 80, 24), Env(Produce(CHUNK))) == Coming(TOP);
  }

  lemma ChunkAccepted()
    ensures Reachable(Offering())
  {
    hide Reachable;
    ChunkProduced();
    ReachOne(Coming(TOP), Loop(Advance));
    ReachOne(Coming(Settle), Loop(Advance));
    ReachOne(Coming(Select), Loop(TakeBatch(0)));
    assert [CHUNK][1..] == [] && [] + [CHUNK] == [CHUNK] && [] + CHUNK == CHUNK;
    assert Apply(Coming(Select), Loop(TakeBatch(0))) == Offering();
  }

  lemma StopAsked()
    ensures Reachable(HoldingChunk(Dispatch(Stop)))
  {
    hide Reachable;
    ChunkAccepted();
    ReachOne(Offering(), Loop(Advance));
    ReachOne(HoldingChunk(TOP), Loop(Advance));
    ReachOne(HoldingChunk(Settle), Loop(Advance));
    ReachOne(HoldingChunk(Select), Loop(TakeAction(Stop)));
    ReachOne(HoldingChunk(Prune(0, false, ToDispatch(Stop))), Loop(Advance));
  }

  lemma StopHandled()
    ensures Reachable(Stopped(StopDrain, Waiting))
  {
    hide Reachable;
    StopAsked();
    ReachOne(HoldingChunk(Dispatch(Stop)), Loop(Advance));
    assert Apply(HoldingChunk(Dispatch(Stop)), Loop(Advance)) == Stopped(StopDrain, Waiting);
  }

  /** A stop can lose output. */
  lemma StopCanLose() returns (s: State)
    ensures Reachable(s) && s.loop.pc == Halted(false)
    ensures s.accepted == CHUNK && Cat(FedBytes, s.term.log) == []
  {
    hide Reachable;
    StopHandled();
    ReachOne(Stopped(StopDrain, Waiting), Feeder(FeedEnd));
    ReachOne(Stopped(StopDrain, Ended), Loop(Advance));
    ReachOne(Stopped(StopClose(0), Ended), Loop(Advance));
    s := Stopped(Halted(false), Ended);
  }
}
