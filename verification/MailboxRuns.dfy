/** What every run of the mailbox guarantees, whatever crashes, cancels or loses a race in it. */
module MailboxRuns {
  import opened Wrappers
  import opened Mailbox
  import opened MailboxOrder
  import opened MailboxCrash
  import opened MailboxSystem
  import opened MailboxSafety
  import A = AcpClient

  // ----- The invariant -----

  /** The system as the next operation sees it. */
  function Seen(s: System): System {
    s.(box := Mended(s.box))
  }

  /** Whatever a step does to the store is one operation. */
  lemma DoApplies(s: System, step: Step) returns (op: Op)
    ensures Do(s, step).box == s.box || (Apply(s.box, op) == Some(Do(s, step).box) && (op.OpenOp? ==> step.OpenMailbox?))
  {
    op := OpenOp;
    match step
    case CompletePrimary(content) => op := PrimaryOp(content);
    case SendMessage(owner, key, text) => op := if s.cancelled then InterruptOp(CANCELLED) else SendOp(owner, key, text);
    case Next =>
      op :=
        if s.cancelled then InterruptOp(CANCELLED)
        else if Apply(s.box, ClaimOp).Some? then ClaimOp
        else CloseOp(EmptyDrain, false);
    case Announcing(prompt) =>
      if s.pump.Holding? {
        op :=
          if prompt == "" then RejectOp(s.pump.i, NOT_COMPOSED)
          else if s.cancelled then InterruptOp(CANCELLED)
          else AnnounceOp(s.pump.i, s.lastRpc + 1, prompt);
      }
    case Settle(persists) =>
      if s.pump.Answered? {
        op := if Accepts(s.pump.outcome) && persists then DeliverOp(s.pump.i) else LoseOp(s.pump.i, FAILED);
      }
    case Finish => op := CloseOp(FAILED, false);
    case RecoverLost => op := InterruptOp(LOST);
    case _ =>
  }

  lemma DoKeepsValid(s: System, step: Step)
    requires Valid(s.box)
    ensures Valid(Do(s, step).box)
  {
    var op := DoApplies(s, step);
    if Do(s, step).box != s.box {
      ApplyKeepsValid(s.box, op);
    }
  }

  /** A torn delivery leaves the batch that proves it. */
  lemma TornDeliveryIsProven(s: System, op: Op)
    requires Tied(s) && UnderWay(s, op) && op.DeliverOp? && Deliver(s.box, op.i).Some?
    ensures Proven(Deliver(s.box, op.i).value.messages, s.proofs[op.i := s.pump.batch], s.sent)
  {
  }

  lemma TornPumpAgrees(s: System, op: Op, left: Store)
    requires Valid(s.box) && Tied(s) && UnderWay(s, op) && Leaves(s.box, op, left)
    requires Recover(left).Some? && Finishes(s.box, op, Recover(left).value) && Moves(s.box.messages, Recover(left).value.messages)
    ensures PumpAgrees(Seen(TornAt(s, op, left)))
  {
    if op.SendOp? || (op.InterruptOp? && s.cancelled) {
      TurnCarriesOver(s, Seen(TornAt(s, op, left)));
    }
  }

  lemma TornKeepsTied(s: System, op: Op, left: Store)
    requires Valid(s.box) && Tied(s) && UnderWay(s, op) && Leaves(s.box, op, left)
    ensures Inv(TornAt(s, op, left))
  {
    CrashIsRecovered(s.box, op, left);
    var r := Recover(left).value;
    FinishesMoves(s.box, op, r);
    TornPumpAgrees(s, op, left);
    SequenceCarriesOver(s.sent, s.box.messages, r.messages, s.lastRpc, s.lastRpc);
    if op.DeliverOp? {
      TornDeliveryIsProven(s, op);
    } else {
      ProvenCarriesOver(s.box.messages, r.messages, s.proofs, s.sent);
    }
  }

  /** What a step leaves of a store needs no mending. */
  lemma SeenDo(s: System, step: Step)
    requires Inv(s) && !step.Torn?
    ensures Seen(Exec(s, step)) == Do(Seen(s), step) == Exec(s, step) && Inv(Exec(s, step))
  {
    var seen := Seen(s);
    DoKeepsTied(seen, step);
    DoKeepsValid(seen, step);
    RecoverIsIdle(Do(seen, step).box);
  }

  lemma ExecKeepsInv(s: System, step: Step)
    requires Inv(s)
    ensures Inv(Exec(s, step))
  {
    if step.Torn? {
      var seen := Seen(s);
      RecoverIsIdle(seen.box);
      if UnderWay(seen, step.op) && Leaves(seen.box, step.op, step.left) {
        TornKeepsTied(seen, step.op, step.left);
      }
    } else {
      SeenDo(s, step);
    }
  }

  lemma {:induction false} RunKeepsInv(s: System, steps: seq<Step>)
    requires Inv(s)
    ensures Inv(Run(s, steps))
    decreases |steps|
  {
    if steps != [] {
      ExecKeepsInv(s, steps[0]);
      RunKeepsInv(Exec(s, steps[0]), steps[1..]);
    }
  }

  lemma InitialIsInv(binding: nat, lastRpc: nat)
    ensures Inv(Initial(binding, lastRpc))
  {
    PreparedIsValid(binding);
    RecoverIsIdle(Prepared(binding));
  }

  ghost function Reached(binding: nat, lastRpc: nat, steps: seq<Step>): (s: System)
    ensures Inv(s)
  {
    InitialIsInv(binding, lastRpc);
    RunKeepsInv(Initial(binding, lastRpc), steps);
    Run(Initial(binding, lastRpc), steps)
  }
}
