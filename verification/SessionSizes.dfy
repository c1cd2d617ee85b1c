/** The session's size is the policy's choice among its writable clients, until one leaves unnoticed. */
module SessionSizes {
  import opened Bytes
  import opened Sizes
  import opened Session
  import opened SessionChannels

  /** The client whose dump an attach is waiting for, if it will have a say in the size. */
  function Newcomer(pc: LoopPc): seq<TermSize>
  {
    match pc
    case AttachFlush(spec) => if spec.readOnly then [] else [spec.size]
    case AttachWait(spec) => if spec.readOnly then [] else [spec.size]
    case AttachDump(spec) => if spec.readOnly then [] else [spec.size]
    case _ => []
  }

  predicate Fits(t: TermVars, sizes: seq<TermSize>)
  {
    sizes != [] ==> t.cols == Chosen(t.policy, sizes).cols && t.rows == Chosen(t.policy, sizes).rows
  }

  predicate SizeLaw(s: State)
    requires InRange(s.loop, |s.table|)
  {
    Fits(s.term, WritableSizes(s.table, s.loop.clients) + Newcomer(s.loop.pc))
  }

  predicate SizesOk(s: State)
    requires InRange(s.loop, |s.table|)
  {
    && (!s.term.drift ==> SizeLaw(s))
    && (Newcomer(s.loop.pc) != [] ==> !s.term.drift)
  }

  // --- Writable sizes --------------------------------------------------------

  predicate SameSizes(table: seq<Client>, table': seq<Client>)
  {
    && |table| <= |table'|
    && forall c :: 0 <= c < |table| ==> table'[c].readOnly == table[c].readOnly && table'[c].size == table[c].size
  }

  lemma {:induction false} SameWritableSizes(table: seq<Client>, table': seq<Client>, clients: seq<nat>)
    requires Below(clients, |table|) && SameSizes(table, table')
    ensures WritableSizes(table', clients) == WritableSizes(table, clients)
  {
    if clients != [] {
      SameWritableSizes(table, table', clients[..|clients| - 1]);
    }
  }

  lemma {:induction false} WritableSizesAppend(table: seq<Client>, a: seq<nat>, b: seq<nat>)
    requires Below(a, |table|) && Below(b, |table|)
    ensures Below(a + b, |table|)
    ensures WritableSizes(table, a + b) == WritableSizes(table, a) + WritableSizes(table, b)
  {
    if b == [] {
      assert a + b == a;
    } else {
      var n := |b| - 1;
      assert (a + b)[..|a + b| - 1] == a + b[..n];
      WritableSizesAppend(table, a, b[..n]);
    }
  }

  lemma ReadersDoNotCount(table: seq<Client>, clients: seq<nat>, i: nat)
    requires Below(clients, |table|) && i < |clients| && table[clients[i]].readOnly
    ensures WritableSizes(table, clients[..i] + clients[i + 1..]) == WritableSizes(table, clients)
  {
    var a, x, b := clients[..i], clients[i], clients[i + 1..];
    var ax := a + [x];
    assert clients == ax + b;
    assert Below(a, |table|) && Below(b, |table|);
    assert ax[..|ax| - 1] == a;
    WritableSizesAppend(table, ax, b);
    WritableSizesAppend(table, a, b);
  }

  lemma ArbitrateFits(t: TermVars, sizes: seq<TermSize>)
    ensures Fits(Arbitrate(t, sizes), sizes) && !Arbitrate(t, sizes).drift
    ensures Arbitrate(t, sizes).policy == t.policy
  {
  }

  // --- The loop --------------------------------------------------------------

  /** A step that changes neither the size, nor the list, nor what its clients want. */
  lemma SameSizesKept(s: State, s': State)
    requires InRange(s.loop, |s.table|) && InRange(s'.loop, |s'.table|) && SizesOk(s)
    requires SameSizes(s.table, s'.table)
    requires s'.loop.clients == s.loop.clients && s'.term.(log := s.term.log) == s.term
    requires Newcomer(s'.loop.pc) == Newcomer(s.loop.pc)
    ensures SizesOk(s')
  {
    SameWritableSizes(s.table, s'.table, s.loop.clients);
  }

  lemma PruneSizes(s: State)
    requires InRange(s.loop, |s.table|) && s.loop.pc.Prune? && Finds(s) && SizesOk(s)
    requires InRange(PruneOne(s).loop, |s.table|)
    ensures SizesOk(PruneOne(s))
  {
    hide Fits;
    var s' := PruneOne(s);
    if s.table[s.loop.clients[s.loop.pc.i]].readOnly {
      ReadersDoNotCount(s.table, s.loop.clients, s.loop.pc.i);
      SameWritableSizes(s.table, s'.table, s'.loop.clients);
    }
  }

  lemma DropSizes(s: State, x: nat, ending: Ending)
    requires InRange(s.loop, |s.table|) && x < |s.table|
    ensures var s' := Drop(s, x, ending); InRange(s'.loop, |s'.table|) && SizesOk(s') && SizeLaw(s')
  {
    DropInRange(s, x, ending);
    var s' := Drop(s, x, ending);
    ArbitrateFits(s.term, WritableSizes(s'.table, s'.loop.clients));
    assert Newcomer(s'.loop.pc) == [];
    assert WritableSizes(s'.table, s'.loop.clients) + [] == WritableSizes(s'.table, s'.loop.clients);
  }

  lemma ResizeSizes(s: State, x: nat, size: TermSize)
    requires InRange(s.loop, |s.table|) && x < |s.table|
    ensures var s' := StepResize(s, x, size); SizesOk(s') && SizeLaw(s')
  {
    var s' := StepResize(s, x, size);
    ArbitrateFits(s.term, WritableSizes(s'.table, s'.loop.clients));
    assert WritableSizes(s'.table, s'.loop.clients) + [] == WritableSizes(s'.table, s'.loop.clients);
  }

  lemma AttachSizes(s: State, spec: AttachSpec)
    requires InRange(s.loop, |s.table|) && Newcomer(s.loop.pc) == [] && SizesOk(s)
    ensures SizesOk(StepAttach(s, spec))
    ensures !spec.readOnly ==> SizeLaw(StepAttach(s, spec))
  {
    assert spec.readOnly ==> Newcomer(StepAttach(s, spec).loop.pc) == Newcomer(s.loop.pc);
  }

  lemma ActionSizes(s: State, a: Action)
    requires InRange(s.loop, |s.table|) && ActionInRange(a, |s.table|) && Newcomer(s.loop.pc) == [] && SizesOk(s)
    ensures InRange(StepAction(s, a).loop, |StepAction(s, a).table|) && SizesOk(StepAction(s, a))
  {
    ActionInRangeKept(s, a);
    match a {
      case Attach(spec) => AttachSizes(s, spec);
      case Detach(c) => if c in s.loop.clients { DropSizes(s, c, Detached); }
      case Kick(id) =>
        var target := FindById(s.loop.clients, id);
        if target.Some? { DropSizes(s, target.value, Kicked); }
      case Resize(c, size) => ResizeSizes(s, c, size);
      case Stop => SameSizesKept(s, StepStop(s));
      case Info =>
    }
  }

  /** What the size arbitration sees once an attach has gone through. */
  lemma NewcomerCounts(s: State)
    requires InRange(s.loop, |s.table|) && s.loop.pc.AttachDump?
    ensures var s' := StepDumpOk(s);
            && InRange(s'.loop, |s'.table|)
            && WritableSizes(s'.table, s'.loop.clients) == WritableSizes(s.table, s.loop.clients) + Newcomer(s.loop.pc)
  {
    var s' := StepDumpOk(s);
    assert s'.loop.clients[..|s'.loop.clients| - 1] == s.loop.clients;
    SameWritableSizes(s.table, s'.table, s.loop.clients);
  }

  /** The arbitration after a writable attach changes nothing: the size was chosen before the dump. */
  lemma AttachAgrees(s: State)
    requires InRange(s.loop, |s.table|) && s.loop.pc.AttachDump? && !s.loop.pc.spec.readOnly && SizesOk(s)
    ensures var s' := StepDumpOk(s);
            && InRange(s'.loop, |s'.table|) && SizeLaw(s')
            && s'.term == s.term
            && s'.table[|s.table|].queue[0].cols == s'.term.cols
            && s'.table[|s.table|].queue[0].rows == s'.term.rows
  {
    NewcomerCounts(s);
    var s' := StepDumpOk(s);
    assert WritableSizes(s'.table, s'.loop.clients) + [] == WritableSizes(s'.table, s'.loop.clients);
  }

  lemma DumpSizes(s: State)
    requires InRange(s.loop, |s.table|) && s.loop.pc.AttachDump? && SizesOk(s)
    ensures var s' := StepDumpOk(s); InRange(s'.loop, |s'.table|) && SizesOk(s')
  {
    NewcomerCounts(s);
    if s.loop.pc.spec.readOnly {
      assert Newcomer(StepDumpOk(s).loop.pc) == Newcomer(s.loop.pc) == [];
      assert WritableSizes(s.table, s.loop.clients) + [] == WritableSizes(s.table, s.loop.clients);
    } else {
      AttachAgrees(s);
    }
  }

  /** The size an abandoned attach asked for stays, and is marked stale. */
  lemma FailedDumpSizes(s: State)
    requires InRange(s.loop, |s.table|) && s.loop.pc.AttachDump? && SizesOk(s)
    ensures SizesOk(StepDumpFail(s))
  {
  }

  lemma NotifySizes(s: State)
    requires InRange(s.loop, |s.table|) && SizesOk(s) && s.loop.pc.Notify?
    requires InRange(StepNotify(s).loop, |StepNotify(s).table|)
    ensures SizesOk(StepNotify(s))
  {
    hide SizesOk;
    SameSizesKept(s, StepNotify(s));
  }

  lemma OfferSizes(s: State)
    requires InRange(s.loop, |s.table|) && SizesOk(s) && s.loop.pc.Offer?
    requires InRange(StepOffer(s).loop, |StepOffer(s).table|)
    ensures SizesOk(StepOffer(s))
  {
    hide SizesOk;
    SameSizesKept(s, StepOffer(s));
  }

  lemma CloseSizes(s: State)
    requires InRange(s.loop, |s.table|) && SizesOk(s) && (s.loop.pc.ExitClose? || s.loop.pc.StopClose?)
    requires InRange(StepClose(s).loop, |StepClose(s).table|)
    ensures SizesOk(StepClose(s))
  {
    hide SizesOk;
    SameSizesKept(s, StepClose(s));
  }

  lemma DispatchSizes(s: State)
    requires InRange(s.loop, |s.table|) && SizesOk(s) && s.loop.pc.Dispatch?
    ensures var s' := StepDispatch(s); InRange(s'.loop, |s'.table|) && SizesOk(s')
  {
    hide StepAction, WritableSizes, Chosen;
    ActionSizes(s.(loop := ResetOutput(s.loop)), s.loop.pc.action);
  }

  lemma PruneScanSizes(s: State)
    requires InRange(s.loop, |s.table|) && SizesOk(s) && s.loop.pc.Prune?
    requires InRange(StepPrune(s).loop, |StepPrune(s).table|)
    ensures SizesOk(StepPrune(s))
  {
    hide SizesOk;
    if Finds(s) {
      PruneSizes(s);
    } else {
      SameSizesKept(s, StepPrune(s));
    }
  }

  lemma QuietSizes(s: State)
    requires InRange(s.loop, |s.table|) && SizesOk(s) && CanAdvance(s)
    requires s.loop.pc.Settle? || s.loop.pc.AttachFlush? || s.loop.pc.AttachWait?
             || s.loop.pc.ExitWait? || s.loop.pc.ExitDrain? || s.loop.pc.StopDrain?
    requires InRange(StepAdvance(s).loop, |StepAdvance(s).table|)
    ensures SizesOk(StepAdvance(s))
  {
    hide SizesOk, InRange;
    SameSizesKept(s, StepAdvance(s));
  }

  lemma AdvanceSizes(s: State)
    requires InRange(s.loop, |s.table|) && SizesOk(s) && CanAdvance(s)
    requires InRange(StepAdvance(s).loop, |StepAdvance(s).table|)
    ensures SizesOk(StepAdvance(s))
  {
    hide SizesOk, InRange, StepPrune, StepNotify, StepOffer, StepDispatch, StepClose;
    match s.loop.pc {
      case Prune(_, _, _) => PruneScanSizes(s);
      case Notify(_, _) => NotifySizes(s);
      case Offer(_) => OfferSizes(s);
      case Dispatch(_) => DispatchSizes(s);
      case ExitClose(_) => CloseSizes(s);
      case StopClose(_) => CloseSizes(s);
      case Settle => QuietSizes(s);
      case AttachFlush(_) => QuietSizes(s);
      case AttachWait(_) => QuietSizes(s);
      case ExitWait => QuietSizes(s);
      case ExitDrain => QuietSizes(s);
      case StopDrain => QuietSizes(s);
    }
  }

  lemma LoopSizes(s: State, op: LoopOp)
    requires InRange(s.loop, |s.table|) && SizesOk(s) && LoopEnabled(s, op)
    ensures var s' := LoopStep(s, op); InRange(s'.loop, |s'.table|) && SizesOk(s')
  {
    hide SizesOk, StepAdvance, StepDumpOk, StepDumpFail;
    LoopInRange(s, op);
    match op {
      case Advance => AdvanceSizes(s);
      case DumpOk => DumpSizes(s);
      case DumpFail => FailedDumpSizes(s);
      case _ => SameSizesKept(s, LoopStep(s, op));
    }
  }

  lemma WriterSizes(s: State, c: nat, op: WriterOp)
    requires InRange(s.loop, |s.table|) && SizesOk(s) && c < |s.table| && WriterEnabled(s.table[c], op)
    ensures SizesOk(WriterStep(s, c, op))
  {
    hide SizesOk;
    SameSizesKept(s, WriterStep(s, c, op));
  }

  lemma StepKeepsSizes(s: State, l: Label)
    requires InRange(s.loop, |s.table|) && SizesOk(s) && Enabled(s, l)
    ensures var s' := Apply(s, l); InRange(s'.loop, |s'.table|) && SizesOk(s')
  {
    hide SizesOk, LoopStep, WriterApply, InRange;
    match l {
      case Loop(op) => LoopSizes(s, op);
      case Writer(c, op) => WriterSizes(s, c, op);
      case Feeder(op) => SameSizesKept(s, FeederStep(s, op));
      case Env(op) => SameSizesKept(s, EnvStep(s, op));
    }
  }
}
