/** The loop does not sleep through a chance to deliver or to prune. */
module SessionWakeup {
  import opened Bytes
  import opened Session
  import opened SessionChannels

  /** A writer that will put a token on `clientReady` before it does anything else. */
  predicate Signalling(pc: WriterPc)
  {
    pc.Dequeued? || pc.Unsignalled?
  }

  predicate Blocked(cl: Client)
  {
    |cl.queue| >= OUT_BUFFER && !WriteDone(cl)
  }

  /** Why it is safe to wait on a pending client. */
  predicate Safe(cl: Client, token: bool)
  {
    Blocked(cl) || Signalling(cl.pc) || token
  }

  ghost predicate Wakes(v: LoopVars, table: seq<Client>, token: bool)
  {
    v.pc.Offer? || v.pc.Select? ==>
      forall k :: 0 <= k < |v.pending| ==> v.pending[k] < |table| && Safe(table[v.pending[k]], token)
  }

  lemma WriterKeepsSafe(cl: Client, op: WriterOp, token: bool)
    requires Safe(cl, token) && WriterEnabled(cl, op)
    ensures Safe(WriterApply(cl, op), token || op.Signal? || op.LastSignal?)
  {
  }

  lemma WriterKeepsWakes(s: State, c: nat, op: WriterOp)
    requires Wakes(s.loop, s.table, s.token) && c < |s.table| && WriterEnabled(s.table[c], op)
    ensures var s' := WriterStep(s, c, op); Wakes(s'.loop, s'.table, s'.token)
  {
    if Safe(s.table[c], s.token) {
      WriterKeepsSafe(s.table[c], op, s.token);
    }
  }

  lemma OfferKeepsWakes(s: State)
    requires InRange(s.loop, |s.table|) && s.loop.pc.Offer?
    requires Wakes(s.loop, s.table, s.token)
    ensures var s' := StepOffer(s); Wakes(s'.loop, s'.table, s'.token)
  {
  }

  /** Neither parked nor in a delivery scan. */
  predicate Busy(pc: LoopPc)
  {
    !pc.Offer? && !pc.Select?
  }

  lemma ActionBusy(s: State, a: Action)
    requires InRange(s.loop, |s.table|) && ActionInRange(a, |s.table|)
    ensures Busy(StepAction(s, a).loop.pc)
  {
  }

  lemma ScanBusy(s: State)
    requires InRange(s.loop, |s.table|) && (s.loop.pc.Prune? || s.loop.pc.Notify?)
    ensures Busy((if s.loop.pc.Prune? then StepPrune(s) else StepNotify(s)).loop.pc)
  {
  }

  lemma CloseBusy(s: State)
    requires InRange(s.loop, |s.table|) && (s.loop.pc.ExitClose? || s.loop.pc.StopClose?)
    ensures Busy(StepClose(s).loop.pc)
  {
  }

  lemma AdvanceBusy(s: State)
    requires InRange(s.loop, |s.table|) && CanAdvance(s) && !s.loop.pc.Offer? && !s.loop.pc.Settle?
    ensures Busy(StepAdvance(s).loop.pc)
  {
    match s.loop.pc {
      case Prune(_, _, _) => ScanBusy(s);
      case Notify(_, _) => ScanBusy(s);
      case Dispatch(a) => ActionBusy(s.(loop := ResetOutput(s.loop)), a);
      case ExitClose(_) => CloseBusy(s);
      case StopClose(_) => CloseBusy(s);
      case AttachFlush(_) =>
      case AttachWait(_) =>
      case ExitWait =>
      case ExitDrain =>
      case StopDrain =>
    }
  }

  /** Every other step leaves the loop busy, or starts a scan with nobody pending. */
  lemma LoopLeavesSelect(s: State, op: LoopOp)
    requires InRange(s.loop, |s.table|) && LoopEnabled(s, op)
    requires !(op.Advance? && (s.loop.pc.Offer? || s.loop.pc.Settle?))
    ensures var v := LoopStep(s, op).loop; Busy(v.pc) || v.pending == []
  {
    if op.Advance? {
      AdvanceBusy(s);
    }
  }

  lemma LoopKeepsWakes(s: State, op: LoopOp)
    requires InRange(s.loop, |s.table|) && OutputIffWaiting(s.loop) && LoopEnabled(s, op)
    requires Wakes(s.loop, s.table, s.token)
    ensures var s' := LoopStep(s, op); Wakes(s'.loop, s'.table, s'.token)
  {
    var pc := LoopStep(s, op).loop.pc;
    if op.Advance? && s.loop.pc.Offer? {
      OfferKeepsWakes(s);
    } else if op.Advance? && s.loop.pc.Settle? {
    } else {
      LoopLeavesSelect(s, op);
    }
  }

  lemma StepKeepsWakes(s: State, l: Label)
    requires Wakes(s.loop, s.table, s.token) && OutputIffWaiting(s.loop) && Enabled(s, l)
    ensures var s' := Apply(s, l); Wakes(s'.loop, s'.table, s'.token)
  {
    match l {
      case Loop(op) => LoopKeepsWakes(s, op);
      case Writer(c, op) => WriterKeepsWakes(s, c, op);
      case Feeder(_) =>
      case Env(_) =>
    }
  }
}
