/** Every client receives the output exactly once: its dump, then the rest. */
module SessionDelivery {
  import opened Bytes
  import opened Sizes
  import opened Session
  import opened SessionChannels

  function InHand(pc: WriterPc): seq<Msg>
  {
    match pc
    case Dequeued(m) => [m]
    case Writing(m) => [m]
    case _ => []
  }

  /** Everything ever queued for a client: written, in its writer's hand, and queued. */
  function Carried(cl: Client): seq<Msg>
  {
    cl.wire + (InHand(cl.pc) + cl.queue)
  }

  function Stream(msgs: seq<Msg>): Bytes
  {
    Cat(Payload, msgs)
  }

  predicate Live(pc: WriterPc)
  {
    pc.Idle? || pc.Dequeued? || pc.Writing?
  }

  /** What the loop still has to queue for a client from the batch it is delivering. */
  function Owed(pending: seq<nat>, todo: seq<nat>, output: Option<Bytes>, c: nat): Bytes
  {
    if output.Some? && (c in pending || c in todo) then output.value else []
  }

  function OwedBy(v: LoopVars, c: nat): Bytes
  {
    Owed(v.pending, v.todo, v.output, c)
  }

  /** The delivery account of one client. */
  predicate Account(cl: Client, owed: Bytes, accepted: Bytes)
  {
    if cl.failed then (cl.pc.Closing? || WriteDone(cl)) && Stream(cl.wire) <= accepted
    else if cl.ending.Open? then Live(cl.pc) && Stream(Carried(cl)) + owed == accepted
    else if cl.ending.Finished? then Stream(Carried(cl)) == accepted
    else Stream(Carried(cl)) <= accepted
  }

  ghost predicate Accounts(v: LoopVars, table: seq<Client>, accepted: Bytes)
  {
    forall c :: 0 <= c < |table| ==> Account(table[c], OwedBy(v, c), accepted)
  }

  // --- One client ------------------------------------------------------------

  lemma WrittenIsPrefix(cl: Client, owed: Bytes, accepted: Bytes)
    requires Account(cl, owed, accepted)
    ensures Stream(cl.wire) <= accepted
  {
    if !cl.failed {
      var rest := Stream(InHand(cl.pc) + cl.queue);
      CatAppend(Payload, cl.wire, InHand(cl.pc) + cl.queue);
      assert Stream(cl.wire) + (rest + owed) == (Stream(cl.wire) + rest) + owed;
    }
  }

  lemma WriterCarriesOn(cl: Client, op: WriterOp)
    requires WriterEnabled(cl, op) && !op.WriteFail?
    ensures Carried(WriterApply(cl, op)) == Carried(cl)
  {
    var cl' := WriterApply(cl, op);
    if op.Receive? {
      assert cl.queue == [cl.queue[0]] + cl.queue[1..];
    } else if op.WriteOk? && cl.pc.Writing? {
      assert Carried(cl') == cl.wire + [cl.pc.msg] + cl.queue == Carried(cl);
    } else {
      assert InHand(cl'.pc) == InHand(cl.pc);
    }
  }

  lemma WriterKeepsAccount(cl: Client, op: WriterOp, owed: Bytes, accepted: Bytes)
    requires Account(cl, owed, accepted) && WriterEnabled(cl, op)
    ensures Account(WriterApply(cl, op), owed, accepted)
  {
    WrittenIsPrefix(cl, owed, accepted);
    if !op.WriteFail? {
      WriterCarriesOn(cl, op);
    }
  }

  lemma SendKeepsAccount(cl: Client, m: Msg, owed: Bytes, accepted: Bytes)
    requires cl.ending.Open? && Account(cl, Payload(m) + owed, accepted)
    ensures Account(cl.(queue := cl.queue + [m]), owed, accepted)
  {
    var cl' := cl.(queue := cl.queue + [m]);
    assert Carried(cl') == Carried(cl) + [m];
    CatSnoc(Payload, Carried(cl), m);
  }

  lemma NotifyKeepsAccount(cl: Client, m: Msg, owed: Bytes, accepted: Bytes)
    requires cl.ending.Open? && m.ClientsChanged? && Account(cl, owed, accepted)
    ensures Account(TrySend(cl, m), owed, accepted)
  {
    assert Payload(m) + owed == owed;
    SendKeepsAccount(cl, m, owed, accepted);
  }

  /** A client that is offered a batch is owed nothing of it afterwards, unless it has to wait. */
  lemma OfferKeepsAccount(cl: Client, data: Bytes, accepted: Bytes)
    requires cl.ending.Open? && Account(cl, data, accepted)
    ensures WriteDone(cl) ==> Account(cl, [], accepted)
    ensures |cl.queue| < OUT_BUFFER ==> Account(TrySend(cl, Output(data)), [], accepted)
  {
    assert Payload(Output(data)) + [] == data;
    SendKeepsAccount(cl, Output(data), [], accepted);
  }

  lemma EndKeepsAccount(cl: Client, ending: Ending, owed: Bytes, accepted: Bytes)
    requires cl.ending.Open? && Account(cl, owed, accepted)
    requires !ending.Open? && (ending.Finished? ==> owed == [])
    ensures Account(cl.(ending := ending), [], accepted)
  {
    var cl' := cl.(ending := ending);
    assert Carried(cl') == Carried(cl);
  }

  lemma NewAccount(s: State, spec: AttachSpec)
    requires Cat(FedBytes, s.term.log) == s.accepted
    ensures Account(NewClient(s, spec), [], s.accepted)
  {
    var cl := NewClient(s, spec);
    assert Carried(cl) == cl.queue;
    CatOne(Payload, cl.queue[0]);
  }

  // --- The loop --------------------------------------------------------------

  /** A step that touches no queue and owes every client the same. */
  ghost predicate SameAccounts(s: State, s': State)
  {
    && s'.table == s.table
    && s'.accepted == s.accepted
    && forall c :: 0 <= c < |s.table| ==> OwedBy(s'.loop, c) == OwedBy(s.loop, c)
  }

  lemma SameAccountsKept(s: State, s': State)
    requires Accounts(s.loop, s.table, s.accepted) && SameAccounts(s, s')
    ensures Accounts(s'.loop, s'.table, s'.accepted)
  {
  }

  /** A step that touches the queue of one client. */
  lemma OneAccountKept(s: State, s': State, x: nat)
    requires Accounts(s.loop, s.table, s.accepted)
    requires x < |s.table| == |s'.table| && s'.accepted == s.accepted
    requires forall c :: 0 <= c < |s.table| && c != x ==>
               s'.table[c] == s.table[c] && OwedBy(s'.loop, c) == OwedBy(s.loop, c)
    requires Account(s'.table[x], OwedBy(s'.loop, x), s.accepted)
    ensures Accounts(s'.loop, s'.table, s'.accepted)
  {
    forall c | 0 <= c < |s'.table|
      ensures Account(s'.table[c], OwedBy(s'.loop, c), s'.accepted)
    {
      if c != x {
        assert s'.table[c] == s.table[c];
      }
    }
  }

  lemma PruneAccounts(s: State)
    requires Channels(s.loop, s.table) && s.loop.pc.Prune? && Finds(s)
    requires Accounts(s.loop, s.table, s.accepted)
    ensures var s' := PruneOne(s); Accounts(s'.loop, s'.table, s'.accepted)
  {
    var x := s.loop.clients[s.loop.pc.i];
    ListsDrop(s.loop, x);
    assert Account(s.table[x], OwedBy(s.loop, x), s.accepted);
    assert x in OpenList(s.loop);
    EndKeepsAccount(s.table[x], Pruned, OwedBy(s.loop, x), s.accepted);
    OneAccountKept(s, PruneOne(s), x);
  }

  lemma NotifyAccounts(s: State)
    requires Channels(s.loop, s.table) && s.loop.pc.Notify? && s.loop.pc.i < |s.loop.clients|
    requires Accounts(s.loop, s.table, s.accepted)
    ensures var s' := NotifyOne(s); Accounts(s'.loop, s'.table, s'.accepted)
  {
    var x := s.loop.clients[s.loop.pc.i];
    var msg := ClientsChanged(|s.loop.clients| % 0x1_0000, s.term.cols, s.term.rows);
    assert x in OpenList(s.loop);
    NotifyKeepsAccount(s.table[x], msg, OwedBy(s.loop, x), s.accepted);
    OneAccountKept(s, NotifyOne(s), x);
  }

  lemma OfferAccounts(s: State)
    requires Channels(s.loop, s.table) && s.loop.pc.Offer? && s.loop.todo != [] && s.loop.output.Some?
    requires Accounts(s.loop, s.table, s.accepted)
    ensures var s' := OfferOne(s); Accounts(s'.loop, s'.table, s'.accepted)
  {
    var v, s' := s.loop, OfferOne(s);
    var x := v.todo[0];
    ListsVisit(v);
    VisitOnce(v);
    assert v.todo == [x] + v.todo[1..];
    assert x in OpenList(v);
    assert Account(s.table[x], OwedBy(v, x), s.accepted);
    OfferKeepsAccount(s.table[x], v.output.value, s.accepted);
    hide Account, Lists;
    OneAccountKept(s, s', x);
  }

  lemma DropAccounts(s: State, x: nat, ending: Ending)
    requires Channels(s.loop, s.table) && s.loop.pc.Dispatch? && x in s.loop.clients
    requires ending.Detached? || ending.Kicked?
    requires Accounts(s.loop, s.table, s.accepted)
    ensures var s' := Drop(s, x, ending); Accounts(s'.loop, s'.table, s'.accepted)
  {
    hide Account, Arbitrate, WritableSizes;
    ListsDrop(s.loop, x);
    assert Account(s.table[x], OwedBy(s.loop, x), s.accepted);
    EndKeepsAccount(s.table[x], ending, OwedBy(s.loop, x), s.accepted);
    OneAccountKept(s, Drop(s, x, ending), x);
  }

  lemma ResizeAccounts(s: State, x: nat, size: TermSize)
    requires InRange(s.loop, |s.table|) && x < |s.table| && Accounts(s.loop, s.table, s.accepted)
    ensures var s' := StepResize(s, x, size); Accounts(s'.loop, s'.table, s'.accepted)
  {
    var cl, cl' := s.table[x], StepResize(s, x, size).table[x];
    assert Account(cl, OwedBy(s.loop, x), s.accepted);
    assert Carried(cl') == Carried(cl);
    OneAccountKept(s, StepResize(s, x, size), x);
  }

  lemma ActionAccounts(s: State, a: Action)
    requires Channels(s.loop, s.table) && s.loop.pc.Dispatch? && ActionInRange(a, |s.table|)
    requires Accounts(s.loop, s.table, s.accepted)
    ensures var s' := StepAction(s, a); Accounts(s'.loop, s'.table, s'.accepted)
  {
    hide Accounts, Drop, StepResize;
    match a {
      case Detach(c) =>
        if c in s.loop.clients { DropAccounts(s, c, Detached); } else { SameAccountsKept(s, Goto(s, TOP)); }
      case Kick(id) =>
        var target := FindById(s.loop.clients, id);
        if target.Some? { DropAccounts(s, target.value, Kicked); } else { SameAccountsKept(s, Goto(s, TOP)); }
      case Resize(c, size) => ResizeAccounts(s, c, size);
      case Attach(spec) => SameAccountsKept(s, StepAttach(s, spec));
      case Stop => SameAccountsKept(s, StepStop(s));
      case Info => SameAccountsKept(s, Goto(s, TOP));
    }
  }

  lemma ResetOwesTheSame(v: LoopVars, c: nat)
    requires OutputIffWaiting(v) && v.todo == []
    ensures OwedBy(ResetOutput(v), c) == OwedBy(v, c)
  {
  }

  lemma DispatchAccounts(s: State)
    requires Channels(s.loop, s.table) && s.loop.pc.Dispatch?
    requires Accounts(s.loop, s.table, s.accepted)
    ensures var s' := StepDispatch(s); Accounts(s'.loop, s'.table, s'.accepted)
  {
    hide Accounts, StepAction;
    var s1 := s.(loop := ResetOutput(s.loop));
    forall c | 0 <= c < |s.table| ensures OwedBy(s1.loop, c) == OwedBy(s.loop, c) {
      ResetOwesTheSame(s.loop, c);
    }
    SameAccountsKept(s, s1);
    ActionAccounts(s1, s.loop.pc.action);
  }

  lemma CloseAccounts(s: State)
    requires Channels(s.loop, s.table) && (s.loop.pc.ExitClose? || s.loop.pc.StopClose?)
    requires s.loop.pc.i < |s.loop.clients|
    requires Accounts(s.loop, s.table, s.accepted)
    ensures var s' := CloseOne(s); Accounts(s'.loop, s'.table, s'.accepted)
  {
    var x := s.loop.clients[s.loop.pc.i];
    assert x == s.loop.clients[s.loop.pc.i..][0];
    assert x in OpenList(s.loop);
    var s' := CloseOne(s);
    assert Account(s.table[x], OwedBy(s.loop, x), s.accepted);
    if s.loop.pc.StopClose? || s.pty.exitCode.Some? {
      assert Carried(s'.table[x]) == Carried(s.table[x]);
      WrittenIsPrefix(s.table[x], OwedBy(s.loop, x), s.accepted);
    }
    OneAccountKept(s, s', x);
  }

  lemma DumpAccounts(s: State)
    requires Channels(s.loop, s.table) && s.loop.pc.AttachDump?
    requires Accounts(s.loop, s.table, s.accepted) && Cat(FedBytes, s.term.log) == s.accepted
    ensures var s' := StepDumpOk(s); Accounts(s'.loop, s'.table, s'.accepted)
  {
    var s' := StepDumpOk(s);
    NewAccount(s, s.loop.pc.spec);
    forall c | 0 <= c < |s'.table|
      ensures Account(s'.table[c], OwedBy(s'.loop, c), s'.accepted)
    {
      if c < |s.table| {
        assert s'.table[c] == s.table[c];
      }
    }
  }

  lemma BatchKeepsAccount(cl: Client, data: Bytes, owed: Bytes, accepted: Bytes)
    requires Account(cl, [], accepted) && !cl.ending.Finished? && (cl.ending.Open? ==> owed == data)
    ensures Account(cl, owed, accepted + data)
  {
    assert Stream(Carried(cl)) + [] == Stream(Carried(cl));
  }

  lemma BatchAccounts(s: State, buf: nat)
    requires Channels(s.loop, s.table) && LoopEnabled(s, TakeBatch(buf))
    requires Accounts(s.loop, s.table, s.accepted)
    requires forall cl <- s.table :: !cl.ending.Finished?
    ensures var s' := StepBatch(s, buf); Accounts(s'.loop, s'.table, s'.accepted)
  {
    hide Account, Lists;
    var s' := StepBatch(s, buf);
    forall c | 0 <= c < |s.table|
      ensures Account(s.table[c], OwedBy(s'.loop, c), s'.accepted)
    {
      assert Account(s.table[c], OwedBy(s.loop, c), s.accepted);
      BatchKeepsAccount(s.table[c], s.pty.out[0], OwedBy(s'.loop, c), s.accepted);
    }
  }

  lemma SettleAccounts(s: State)
    requires OutputIffWaiting(s.loop) && s.loop.pc.Settle? && Accounts(s.loop, s.table, s.accepted)
    ensures var s' := StepSettle(s); Accounts(s'.loop, s'.table, s'.accepted)
  {
    SameAccountsKept(s, StepSettle(s));
  }

  lemma OfferedAccounts(s: State)
    requires InRange(s.loop, |s.table|) && OutputIffWaiting(s.loop) && s.loop.pc.Offer?
    requires s.loop.todo == [] || s.loop.output.None?
    requires Accounts(s.loop, s.table, s.accepted)
    ensures var s' := StepOffer(s); Accounts(s'.loop, s'.table, s'.accepted)
  {
    SameAccountsKept(s, StepOffer(s));
  }

  lemma HaltAccounts(s: State)
    requires InRange(s.loop, |s.table|) && (s.loop.pc.ExitClose? || s.loop.pc.StopClose?)
    requires s.loop.pc.i == |s.loop.clients| && Accounts(s.loop, s.table, s.accepted)
    ensures var s' := StepClose(s); Accounts(s'.loop, s'.table, s'.accepted)
  {
    SameAccountsKept(s, StepClose(s));
  }

  lemma AdvanceAccounts(s: State)
    requires Channels(s.loop, s.table) && CanAdvance(s)
    requires Accounts(s.loop, s.table, s.accepted)
    ensures var s' := StepAdvance(s); Accounts(s'.loop, s'.table, s'.accepted)
  {
    hide Accounts, PruneOne, NotifyOne, OfferOne, StepDispatch, CloseOne, StepSettle;
    match s.loop.pc {
      case Prune(_, _, _) => if Finds(s) { PruneAccounts(s); } else { SameAccountsKept(s, StepPrune(s)); }
      case Notify(_, _) =>
        if s.loop.pc.i < |s.loop.clients| { NotifyAccounts(s); } else { SameAccountsKept(s, StepNotify(s)); }
      case Settle => SettleAccounts(s);
      case Offer(_) =>
        if s.loop.todo != [] && s.loop.output.Some? { OfferAccounts(s); } else { OfferedAccounts(s); }
      case Dispatch(_) => DispatchAccounts(s);
      case ExitClose(_) => if s.loop.pc.i < |s.loop.clients| { CloseAccounts(s); } else { HaltAccounts(s); }
      case StopClose(_) => if s.loop.pc.i < |s.loop.clients| { CloseAccounts(s); } else { HaltAccounts(s); }
      case AttachFlush(_) => SameAccountsKept(s, StepAdvance(s));
      case AttachWait(_) => SameAccountsKept(s, StepAdvance(s));
      case ExitWait => SameAccountsKept(s, StepAdvance(s));
      case ExitDrain => SameAccountsKept(s, StepAdvance(s));
      case StopDrain => SameAccountsKept(s, StepAdvance(s));
    }
  }

  lemma LoopAccounts(s: State, op: LoopOp)
    requires Channels(s.loop, s.table) && LoopEnabled(s, op)
    requires Accounts(s.loop, s.table, s.accepted)
    requires op.TakeBatch? ==> forall cl <- s.table :: !cl.ending.Finished?
    requires op.DumpOk? ==> Cat(FedBytes, s.term.log) == s.accepted
    ensures var s' := LoopStep(s, op); Accounts(s'.loop, s'.table, s'.accepted)
  {
    hide StepAdvance, StepDumpOk, StepBatch;
    match op {
      case Advance => AdvanceAccounts(s);
      case TakeBatch(buf) => BatchAccounts(s, buf);
      case DumpOk => DumpAccounts(s);
      case _ =>
    }
  }

  lemma WriterAccounts(s: State, x: nat, op: WriterOp)
    requires Accounts(s.loop, s.table, s.accepted) && x < |s.table| && WriterEnabled(s.table[x], op)
    ensures var s' := WriterStep(s, x, op); Accounts(s'.loop, s'.table, s'.accepted)
  {
    WriterKeepsAccount(s.table[x], op, OwedBy(s.loop, x), s.accepted);
    OneAccountKept(s, WriterStep(s, x, op), x);
  }

  lemma StepKeepsAccounts(s: State, l: Label)
    requires Channels(s.loop, s.table) && Enabled(s, l)
    requires Accounts(s.loop, s.table, s.accepted)
    requires l.Loop? && l.loop.TakeBatch? ==> forall cl <- s.table :: !cl.ending.Finished?
    requires l.Loop? && l.loop.DumpOk? ==> Cat(FedBytes, s.term.log) == s.accepted
    ensures var s' := Apply(s, l); Accounts(s'.loop, s'.table, s'.accepted)
  {
    hide LoopStep, WriterStep;
    match l {
      case Loop(op) => LoopAccounts(s, op);
      case Writer(c, op) => WriterAccounts(s, c, op);
      case Feeder(_) =>
      case Env(_) =>
    }
  }
}
