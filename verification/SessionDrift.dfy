/** Runs after which the size is not the policy's choice: a dump fails after its resize, or a writer dies. */
module SessionDrift {
  import opened Bytes
  import opened Sizes
  import opened Session
  import opened SessionSizes
  import opened SessionRuns
  import opened SessionChannels

  const WIDE := TermSize(100, 40, 0, 0)
  const NARROW := TermSize(80, 24, 0, 0)

  /** The loop at `pc` with nothing in flight; the clients and the terminal vary. */
  function Idling(pc: LoopPc, table: seq<Client>, clients: seq<nat>, term: TermVars): State
  {
    Init(Smallest, 80, 24).(loop := LoopVars(pc, clients, [], [], None, None, 0), table := table, term := term)
  }

  /** From the start of an attach request to its dump. */
  lemma Attaching(table: seq<Client>, clients: seq<nat>, term: TermVars, spec: AttachSpec)
    requires Below(clients, |table|) && Reachable(Idling(Dispatch(Attach(spec)), table, clients, term))
    requires !spec.readOnly
    ensures Reachable(Idling(AttachDump(spec), table, clients,
                             ResizeTo(term, Chosen(term.policy, WritableSizes(table, clients) + [spec.size]))))
  {
    hide Reachable;
    var s0 := Idling(Dispatch(Attach(spec)), table, clients, term);
    ReachOne(s0, Loop(Advance));
    var s1 := Apply(s0, Loop(Advance));
    var term' := ResizeTo(term, Chosen(term.policy, WritableSizes(table, clients) + [spec.size]));
    assert s1 == Idling(AttachWait(spec), table, clients, term');
    ReachOne(s1, Loop(Advance));
    assert Apply(s1, Loop(Advance)) == Idling(AttachDump(spec), table, clients, term');
  }

  /** A turn of the loop with no finished client, up to the next request. */
  lemma Turning(table: seq<Client>, clients: seq<nat>, term: TermVars, a: Action)
    requires |clients| <= 1 && Below(clients, |table|) && forall c <- clients :: c < |table| && !WriteDone(table[c])
    requires ActionInRange(a, |table|) && Reachable(Idling(TOP, table, clients, term))
    ensures Reachable(Idling(Prune(0, false, ToDispatch(a)), table, clients, term))
  {
    hide Reachable;
    var s := Idling(TOP, table, clients, term);
    if clients != [] {
      assert clients[0] in clients;
      ReachOne(s, Loop(Advance));
      assert Apply(s, Loop(Advance)) == Idling(Prune(1, false, ToSettle), table, clients, term);
      s := Apply(s, Loop(Advance));
    }
    ReachOne(s, Loop(Advance));
    assert Apply(s, Loop(Advance)) == Idling(Settle, table, clients, term);
    s := Apply(s, Loop(Advance));
    ReachOne(s, Loop(Advance));
    assert Apply(s, Loop(Advance)) == Idling(Select, table, clients, term);
    s := Apply(s, Loop(Advance));
    ReachOne(s, Loop(TakeAction(a)));
    assert Apply(s, Loop(TakeAction(a))) == Idling(Prune(0, false, ToDispatch(a)), table, clients, term);
  }

  /** The scan before a request finds nothing to prune. */
  lemma Dispatching(table: seq<Client>, clients: seq<nat>, term: TermVars, a: Action)
    requires |clients| <= 1 && Below(clients, |table|) && forall c <- clients :: c < |table| && !WriteDone(table[c])
    requires ActionInRange(a, |table|) && Reachable(Idling(Prune(0, false, ToDispatch(a)), table, clients, term))
    ensures Reachable(Idling(Dispatch(a), table, clients, term))
  {
    hide Reachable;
    var s := Idling(Prune(0, false, ToDispatch(a)), table, clients, term);
    if clients != [] {
      assert clients[0] in clients;
      ReachOne(s, Loop(Advance));
      assert Apply(s, Loop(Advance)) == Idling(Prune(1, false, ToDispatch(a)), table, clients, term);
      s := Apply(s, Loop(Advance));
    }
    ReachOne(s, Loop(Advance));
    assert Apply(s, Loop(Advance)) == Idling(Dispatch(a), table, clients, term);
  }

  function First(): AttachSpec { AttachSpec(WIDE, false, true) }

  function Second(): AttachSpec { AttachSpec(NARROW, false, false) }

  function OneClient(queue: seq<Msg>): seq<Client>
  {
    [Client(false, WIDE, queue, Open, None, Idle, [], None, false)]
  }

  const START: TermVars := TermVars(Smallest, [], 80, 24, false)
  const WIDENED: TermVars := TermVars(Smallest, [Resized(100, 40)], 100, 40, false)

  lemma SmallestOfOne(size: TermSize)
    ensures Chosen(Smallest, [size]) == size
  {
    assert [size][..0] == [];
    assert MeetAll([size]) == Meet(MeetAll([]), size);
  }

  lemma SmallestOfTwo(wide: TermSize, narrow: TermSize)
    requires Meet(wide, narrow) == narrow
    ensures Chosen(Smallest, [wide] + [narrow]) == narrow
  {
    assert ([wide] + [narrow])[..1] == [wide];
    SmallestOfOne(wide);
  }

  lemma FirstSize()
    ensures ResizeTo(START, Chosen(Smallest, WritableSizes([], []) + [WIDE])) == WIDENED
  {
    assert WritableSizes([], []) + [WIDE] == [WIDE];
    SmallestOfOne(WIDE);
    hide Chosen, WritableSizes;
  }

  lemma FirstRequest()
    ensures Reachable(Idling(Dispatch(Attach(First())), [], [], START))
  {
    var s := Idling(TOP, [], [], START);
    assert s == Init(Smallest, 80, 24);
    assert Run(s, [], s);
    Turning([], [], START, Attach(First()));
    Dispatching([], [], START, Attach(First()));
  }

  lemma FirstFits()
    ensures SizesOk(Idling(AttachDump(First()), [], [], WIDENED))
  {
    assert WritableSizes([], []) + [WIDE] == [WIDE];
    SmallestOfOne(WIDE);
    hide Chosen;
  }

  lemma FirstDumped() returns (hello: seq<Msg>)
    ensures |hello| == 1
    ensures var s := Idling(AttachDump(First()), [], [], WIDENED);
            Apply(s, Loop(DumpOk)) == Idling(Notify(0, ToTop), OneClient(hello), [0], WIDENED)
  {
    hide SizesOk, Arbitrate, WritableSizes, SizeLaw;
    var s := Idling(AttachDump(First()), [], [], WIDENED);
    hello := NewClient(s, First()).queue;
    FirstFits();
    AttachAgrees(s);
    assert s.table + [NewClient(s, First())] == OneClient(hello) && s.loop.clients + [0] == [0];
  }

  lemma NotifyAlone(hello: seq<Msg>, queue: seq<Msg>, term: TermVars)
    requires |hello| == 1 && queue == hello + [ClientsChanged(1, term.cols, term.rows)]
    requires Reachable(Idling(Notify(0, ToTop), OneClient(hello), [0], term))
    ensures Reachable(Idling(TOP, OneClient(queue), [0], term))
  {
    hide Reachable;
    var s1 := Idling(Notify(0, ToTop), OneClient(hello), [0], term);
    ReachOne(s1, Loop(Advance));
    var s2 := Idling(Notify(1, ToTop), OneClient(queue), [0], term);
    assert Apply(s1, Loop(Advance)).table == s2.table;
    assert Apply(s1, Loop(Advance)) == s2;
    ReachOne(s2, Loop(Advance));
    assert Apply(s2, Loop(Advance)) == Idling(TOP, OneClient(queue), [0], term);
  }

  /** One wide writable client attaches. */
  lemma FirstAttaches() returns (queue: seq<Msg>)
    ensures Reachable(Idling(TOP, OneClient(queue), [0], WIDENED))
  {
    hide Reachable;
    FirstRequest();
    FirstSize();
    Attaching([], [], START, First());
    ReachOne(Idling(AttachDump(First()), [], [], WIDENED), Loop(DumpOk));
    var hello := FirstDumped();
    queue := hello + [ClientsChanged(1, 100, 40)];
    NotifyAlone(hello, queue, WIDENED);
  }

  const NARROWED: TermVars := TermVars(Smallest, [Resized(100, 40), Resized(80, 24)], 80, 24, false)

  lemma SecondSize(table: seq<Client>, clients: seq<nat>)
    requires |table| == 1 && clients == [0] && table[0].size == WIDE && !table[0].readOnly
    ensures WritableSizes(table, clients) == [WIDE] && Chosen(Smallest, [WIDE]) == WIDE
    ensures ResizeTo(WIDENED, Chosen(Smallest, WritableSizes(table, clients) + [NARROW])) == NARROWED
  {
    assert clients[..0] == [];
    assert WritableSizes(table, clients) == [] + [WIDE] == [WIDE];
    SmallestOfOne(WIDE);
    SmallestOfTwo(WIDE, NARROW);
    hide Chosen, WritableSizes;
    assert WIDENED.log + [Resized(80, 24)] == NARROWED.log;
  }

  /** A wide client is attached, and a narrow one is about to be. */
  lemma SecondAsks() returns (table: seq<Client>)
    ensures |table| == 1 && table[0].size == WIDE && !table[0].readOnly && table[0].pc.Idle?
    ensures Reachable(Idling(AttachDump(Second()), table, [0], NARROWED))
  {
    hide Reachable;
    var queue := FirstAttaches();
    table := OneClient(queue);
    Turning(table, [0], WIDENED, Attach(Second()));
    Dispatching(table, [0], WIDENED, Attach(Second()));
    Attaching(table, [0], WIDENED, Second());
    SecondSize(table, [0]);
  }

  /** The size law is false of the code without its condition: the second attach fails at its dump. */
  lemma SizeCanBeStale() returns (s: State)
    ensures Reachable(s) && InRange(s.loop, |s.table|)
    ensures s.term.drift && !SizeLaw(s)
  {
    hide Reachable;
    var table := SecondAsks();
    SecondSize(table, [0]);
    var s0 := Idling(AttachDump(Second()), table, [0], NARROWED);
    ReachOne(s0, Loop(DumpFail));
    s := Apply(s0, Loop(DumpFail));
    assert WritableSizes(s.table, s.loop.clients) + [] == [WIDE];
  }

  // --- The other way: a client dies ------------------------------------------

  /** A wide and a narrow writable client are attached, and the size is the narrow one's. */
  predicate Both(s: State)
  {
    && s.loop.clients == [0] + [1] && |s.table| == 2
    && !s.table[0].readOnly && s.table[0].size == WIDE && s.table[0].pc.Idle?
    && !s.table[1].readOnly && s.table[1].size == NARROW
    && s.term.policy == Smallest && s.term.cols == 80 && s.term.rows == 24
  }

  lemma SecondAttaches() returns (s: State)
    ensures Reachable(s) && Both(s) && s.loop.pc == Notify(0, ToTop)
    ensures s.table[1].pc.Idle? && |s.table[1].queue| == 1
  {
    hide Reachable;
    var table := SecondAsks();
    var s0 := Idling(AttachDump(Second()), table, [0], NARROWED);
    SecondSize(table, [0]);
    SmallestOfTwo(WIDE, NARROW);
    assert SizesOk(s0);
    ReachOne(s0, Loop(DumpOk));
    s := Apply(s0, Loop(DumpOk));
    hide SizesOk, SizeLaw, WritableSizes, Chosen, Arbitrate;
    AttachAgrees(s0);
  }

  /** One step of the narrow client's writer. */
  lemma WriterMoves(s: State, op: WriterOp) returns (t: State)
    requires Reachable(s) && Both(s) && WriterEnabled(s.table[1], op)
    ensures Reachable(t) && Both(t) && t.loop == s.loop && t.table[1] == WriterApply(s.table[1], op)
  {
    hide Reachable;
    ReachableInv(s);
    hide Inv, WriterEnabled;
    assert Enabled(s, Writer(1, op));
    ReachOne(s, Writer(1, op));
    t := Apply(s, Writer(1, op));
  }

  /** Its first write fails. */
  lemma SecondDies() returns (s: State)
    ensures Reachable(s) && Both(s) && s.loop.pc == Notify(0, ToTop) && WriteDone(s.table[1])
  {
    hide Reachable, Both;
    s := SecondAttaches();
    s := WriterMoves(s, Receive);
    s := WriterMoves(s, Signal);
    s := WriterMoves(s, WriteFail);
    s := WriterMoves(s, CloseDone);
  }

  /** One step of the loop through its notices, or past the wide client, which is alive. */
  lemma LoopMoves(s: State) returns (t: State)
    requires Reachable(s) && Both(s) && WriteDone(s.table[1])
    requires (s.loop.pc.Notify? && s.loop.pc.next == ToTop) || s.loop.pc == TOP
    ensures Reachable(t) && Both(t) && WriteDone(t.table[1])
    ensures t.loop.pc == if s.loop.pc.Notify? && s.loop.pc.i < 2 then Notify(s.loop.pc.i + 1, ToTop)
                         else if s.loop.pc.Notify? then TOP else Prune(1, false, ToSettle)
  {
    hide Reachable;
    ReachableChannels(s);
    ReachableUnpanicked(s);
    hide Channels;
    ReachOne(s, Loop(Advance));
    t := Apply(s, Loop(Advance));
  }

  lemma NarrowPruned(s: State) returns (t: State)
    requires Reachable(s) && Both(s) && WriteDone(s.table[1]) && s.loop.pc == Prune(1, false, ToSettle)
    ensures Reachable(t) && InRange(t.loop, |t.table|)
    ensures t.term.drift && !SizeLaw(t)
  {
    hide Reachable;
    ReachableChannels(s);
    ReachableUnpanicked(s);
    ReachOne(s, Loop(Advance));
    t := Apply(s, Loop(Advance));
    ReachableChannels(t);
    assert t.loop.clients == [0] && t.loop.clients[..0] == [];
    assert WritableSizes(t.table, t.loop.clients) + [] == [] + [WIDE] == [WIDE];
    SmallestOfOne(WIDE);
  }

  /** Pruning it arbitrates no new size. */
  lemma DeathCanLeaveSizeStale() returns (s: State)
    ensures Reachable(s) && InRange(s.loop, |s.table|)
    ensures s.term.drift && !SizeLaw(s)
  {
    hide Reachable;
    s := SecondDies();
    s := LoopMoves(s);
    s := LoopMoves(s);
    s := LoopMoves(s);
    s := LoopMoves(s);
    s := NarrowPruned(s);
  }
}
