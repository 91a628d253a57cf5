/** How messages move, and what every step keeps between the wire, the pump and the records. */
module MailboxSafety {
  import opened Wrappers
  import opened Mailbox
  import opened MailboxOrder
  import opened MailboxCrash
  import opened MailboxSystem
  import A = AcpClient

  // ----- How messages move -----

  /** One step in the life of a message: outcomes are final, and what was announced stays on record. */
  predicate MovesTo(x: Message, y: Message) {
    && y == x.(status := y.status)
    && (Done(x.status) ==> y == x)
    && (x.status.Inflight? ==> y == x || RecordedAs(y, x.status.rpc, x.status.prompt))
    && (y.status.Inflight? || y.status.Delivered? || y.status.DeliveryUnknown? ==>
          y == x || x.status.Claimed? || x.status.Inflight?)
  }

  predicate Moves(a: seq<Message>, b: seq<Message>) {
    && |a| <= |b|
    && (forall i :: 0 <= i < |a| ==> MovesTo(a[i], b[i]))
    && (forall i :: |a| <= i < |b| ==> b[i].status.Accepted?)
  }

  /** No delivery in `b` is newer than `a`. */
  predicate DeliveredBefore(a: seq<Message>, b: seq<Message>) {
    forall i :: 0 <= i < |b| && b[i].status.Delivered? ==> i < |a| && a[i] == b[i]
  }

  lemma LoseMoves(s: Store, i: nat, reason: Reason)
    requires Lose(s, i, reason).Some?
    ensures Moves(s.messages, Lose(s, i, reason).value.messages)
    ensures DeliveredBefore(s.messages, Lose(s, i, reason).value.messages)
  {
  }

  lemma RejectedMoves(s: Store, k: nat, reason: Reason)
    ensures Moves(s.messages, RejectedTo(s, k, reason).messages)
    ensures DeliveredBefore(s.messages, RejectedTo(s, k, reason).messages)
  {
  }

  lemma InterruptMoves(s: Store, reason: Reason)
    requires Interrupt(s, reason).Some?
    ensures Moves(s.messages, Interrupt(s, reason).value.messages)
    ensures DeliveredBefore(s.messages, Interrupt(s, reason).value.messages)
  {
    var f := FirstInflight(s.messages, 0);
    if !s.attempt.lifecycle.Closed? && f < |s.messages| {
      LoseMoves(s, f, reason);
    } else {
      RejectedMoves(s, |s.messages|, reason);
    }
  }

  lemma OneMessageMoves(s: Store, op: Op)
    requires Apply(s, op).Some? && (op.ClaimOp? || op.AnnounceOp? || op.DeliverOp? || op.RejectOp?)
    ensures Moves(s.messages, Apply(s, op).value.messages)
    ensures !op.DeliverOp? ==> DeliveredBefore(s.messages, Apply(s, op).value.messages)
  {
  }

  lemma ApplyMoves(s: Store, op: Op)
    requires Apply(s, op).Some?
    ensures Moves(s.messages, Apply(s, op).value.messages)
    ensures !op.DeliverOp? ==> DeliveredBefore(s.messages, Apply(s, op).value.messages)
  {
    match op
    case LoseOp(i, reason) => LoseMoves(s, i, reason);
    case InterruptOp(reason) => InterruptMoves(s, reason);
    case ClaimOp => OneMessageMoves(s, op);
    case AnnounceOp(_, _, _) => OneMessageMoves(s, op);
    case DeliverOp(_) => OneMessageMoves(s, op);
    case RejectOp(_, _) => OneMessageMoves(s, op);
    case _ =>
  }

  /** What recovery makes of a torn operation moves messages in the same way. */
  lemma FinishesMoves(s: Store, op: Op, r: Store)
    requires Finishes(s, op, r)
    ensures Moves(s.messages, r.messages)
    ensures !op.DeliverOp? ==> DeliveredBefore(s.messages, r.messages)
  {
    match op
    case CloseOp(_, _) =>
    case InterruptOp(reason) =>
      var f := FirstInflight(s.messages, 0);
      if f < |s.messages| {
        LoseMoves(s, f, reason);
      } else {
        var k: nat :| k <= |s.messages| && (r == RejectedTo(s, k, reason) || r == ClosingStore(RejectedTo(s, k, reason), reason));
        RejectedMoves(s, k, reason);
      }
    case _ => ApplyMoves(s, op);
  }

  // ----- The wire keeps its order -----

  lemma SequenceCarriesOver(sent: seq<Prompt>, a: seq<Message>, b: seq<Message>, lastRpc: nat, lastRpc': nat)
    requires InSequence(sent, a, lastRpc) && Moves(a, b) && lastRpc <= lastRpc'
    ensures InSequence(sent, b, lastRpc')
  {
    forall k | 0 <= k < |sent|
      ensures RecordedAs(b[sent[k].sequence - 1], sent[k].rpc, sent[k].text)
    {
      assert MovesTo(a[sent[k].sequence - 1], b[sent[k].sequence - 1]);
    }
  }

  lemma ProvenCarriesOver(a: seq<Message>, b: seq<Message>, proofs: map<nat, seq<A.Line>>, sent: seq<Prompt>)
    requires Proven(a, proofs, sent) && DeliveredBefore(a, b)
    ensures Proven(b, proofs, sent)
  {
  }

  /** A pump within its turn keeps agreeing, whatever others do to the message. */
  lemma TurnCarriesOver(s: System, s': System)
    requires PumpAgrees(s) && Moves(s.box.messages, s'.box.messages)
    requires s'.pump == s.pump && s'.lastRpc == s.lastRpc && s'.sent == s.sent && (s.cancelled ==> s'.cancelled)
    requires s.pump.Idle? || s.pump.Holding? ==> PumpAgrees(s')
    ensures PumpAgrees(s')
  {
    match s.pump
    case Ready(i, _, _) => assert MovesTo(s.box.messages[i], s'.box.messages[i]);
    case Waiting(i, _) => assert MovesTo(s.box.messages[i], s'.box.messages[i]);
    case Answered(i, _, _, _) => assert MovesTo(s.box.messages[i], s'.box.messages[i]);
    case _ =>
  }

  /** Storing the effect of an operation that delivers nothing, with the pump in a state that agrees. */
  lemma StoredKeepsTied(s: System, op: Op, pump: Pump)
    requires Tied(s) && Apply(s.box, op).Some? && !op.DeliverOp?
    requires PumpAgrees(Stored(s, op, pump))
    ensures Tied(Stored(s, op, pump))
  {
    var s' := Stored(s, op, pump);
    ApplyMoves(s.box, op);
    SequenceCarriesOver(s.sent, s.box.messages, s'.box.messages, s.lastRpc, s.lastRpc);
    ProvenCarriesOver(s.box.messages, s'.box.messages, s.proofs, s.sent);
  }

  // ----- The steps of senders and of the owner -----

  lemma SendKeepsTied(s: System, owner: string, key: string, text: string)
    requires Tied(s)
    ensures Tied(Stored(s, SendOp(owner, key, text), s.pump))
  {
    var op := SendOp(owner, key, text);
    var s' := Stored(s, op, s.pump);
    ApplyMoves(s.box, op);
    TurnCarriesOver(s, s');
    StoredKeepsTied(s, op, s.pump);
  }

  lemma InterruptKeepsTied(s: System, reason: Reason, pump: Pump)
    requires Tied(s) && (pump.Gone? || (pump == s.pump && s.cancelled))
    ensures Tied(Stored(s, InterruptOp(reason), pump))
  {
    var op := InterruptOp(reason);
    if Apply(s.box, op).Some? {
      var s' := Stored(s, op, pump);
      ApplyMoves(s.box, op);
      if !pump.Gone? {
        TurnCarriesOver(s, s');
      }
      StoredKeepsTied(s, op, pump);
    }
  }

  lemma SendingKeepsTied(s: System, owner: string, key: string, text: string)
    requires Tied(s)
    ensures Tied(Sending(s, owner, key, text))
  {
    if s.cancelled {
      InterruptKeepsTied(s, CANCELLED, s.pump);
    } else {
      SendKeepsTied(s, owner, key, text);
    }
  }

  lemma OwnerKeepsTied(s: System, step: Step)
    requires Tied(s) && (step.OpenMailbox? || step.CompletePrimary? || step.RequestCancel?)
    ensures Tied(Do(s, step))
  {
  }

  // ----- The steps of the pump -----

  lemma ClaimingKeepsTied(s: System)
    requires Tied(s)
    ensures Tied(Claiming(s))
  {
    if s.box.attempt.lifecycle.Open? {
      if s.cancelled {
        InterruptKeepsTied(s, CANCELLED, Gone);
      } else {
        var w := WaitingFrom(s.box.messages, 0);
        if Apply(s.box, ClaimOp).Some? && w < |s.box.messages| {
          StoredKeepsTied(s, ClaimOp, Holding(w, s.box.messages[w].status.body));
        } else if s.box.attempt.active.None? && Apply(s.box, CloseOp(EmptyDrain, false)).Some? {
          StoredKeepsTied(s, CloseOp(EmptyDrain, false), Gone);
        }
      }
    }
  }

  /** The message whose turn it is comes after every message that went out. */
  lemma TurnIsLast(s: System, i: nat)
    requires InSequence(s.sent, s.box.messages, s.lastRpc) && Ordered(s.box.messages)
    requires Turnstile(s.box.messages) == i < |s.box.messages| && s.box.messages[i].status.Claimed?
    ensures AllBefore(s.sent, i, s.lastRpc + 1)
  {
    forall k | 0 <= k < |s.sent|
      ensures s.sent[k].sequence <= i
    {
      assert RecordedAs(s.box.messages[s.sent[k].sequence - 1], s.sent[k].rpc, s.sent[k].text);
    }
  }

  lemma AnnouncedIsLast(s: System, i: nat)
    requires InSequence(s.sent, s.box.messages, s.lastRpc) && Valid(s.box)
    requires i < |s.box.messages| && s.box.messages[i].status.Claimed? && s.box.attempt.active == Some(i + 1)
    ensures AllBefore(s.sent, i, s.lastRpc + 1)
  {
    ActiveIsTurn(s.box.messages, i);
    TurnIsLast(s, i);
  }

  lemma AnnouncementKeepsTied(s: System, prompt: string)
    requires Tied(s) && Valid(s.box) && s.pump.Holding? && !s.cancelled
    ensures Tied(Announcement(s, prompt))
  {
    if Announcement(s, prompt).pump.Ready? {
      AnnounceNeedsActive(s, prompt);
      AnnouncedIsLast(s, s.pump.i);
      AnnouncedTies(s, prompt);
    }
  }

  lemma AnnounceNeedsActive(s: System, prompt: string)
    requires s.pump.Holding? && Announcement(s, prompt).pump.Ready?
    ensures var i := s.pump.i;
      && i < |s.box.messages| && s.box.messages[i].status.Claimed? && s.box.attempt.active == Some(i + 1)
      && Apply(s.box, AnnounceOp(i, s.lastRpc + 1, prompt)).Some?
  {
  }

  lemma AnnouncedTies(s: System, prompt: string)
    requires Tied(s) && s.pump.Holding? && AllBefore(s.sent, s.pump.i, s.lastRpc + 1)
    requires Apply(s.box, AnnounceOp(s.pump.i, s.lastRpc + 1, prompt)).Some?
    ensures Tied(Announcement(s, prompt))
  {
    var s' := Announcement(s, prompt);
    ApplyMoves(s.box, AnnounceOp(s.pump.i, s.lastRpc + 1, prompt));
    SequenceCarriesOver(s.sent, s.box.messages, s'.box.messages, s.lastRpc, s.lastRpc + 1);
    ProvenCarriesOver(s.box.messages, s'.box.messages, s.proofs, s.sent);
  }

  lemma NotComposedKeepsTied(s: System)
    requires Tied(s) && s.pump.Holding?
    ensures Tied(NotComposed(s))
  {
    var op := RejectOp(s.pump.i, NOT_COMPOSED);
    if Apply(s.box, op).Some? {
      StoredKeepsTied(s, op, Idle);
    }
  }

  lemma AnnouncedKeepsTied(s: System, prompt: string)
    requires Tied(s) && Valid(s.box) && s.pump.Holding?
    ensures Tied(Announced(s, prompt))
  {
    if prompt == "" {
      NotComposedKeepsTied(s);
    } else if s.cancelled {
      InterruptKeepsTied(s, CANCELLED, Gone);
    } else {
      AnnouncementKeepsTied(s, prompt);
    }
  }

  lemma WentOutStays(sent: seq<Prompt>, prompt: Prompt, i: nat, rpc: nat)
    ensures WentOut(sent, i, rpc) ==> WentOut(sent + [prompt], i, rpc)
    ensures prompt.sequence == i + 1 && prompt.rpc == rpc ==> WentOut(sent + [prompt], i, rpc)
  {
    var more := sent + [prompt];
    assert more[|sent|] == prompt;
    if k :| 0 <= k < |sent| && sent[k].sequence == i + 1 && sent[k].rpc == rpc {
      assert more[k] == sent[k];
    }
  }

  lemma DispatchKeepsProven(messages: seq<Message>, proofs: map<nat, seq<A.Line>>, sent: seq<Prompt>, prompt: Prompt)
    requires Proven(messages, proofs, sent)
    ensures Proven(messages, proofs, sent + [prompt])
  {
    forall i | 0 <= i < |messages| && messages[i].status.Delivered?
      ensures ProvenAt(messages[i].status.turn, i, proofs, sent + [prompt])
    {
      WentOutStays(sent, prompt, i, messages[i].status.turn.rpc.value);
    }
  }

  lemma DispatchedKeepsTied(s: System)
    requires Tied(s) && s.pump.Ready?
    ensures Tied(Dispatched(s))
  {
    var prompt := Prompt(s.pump.i + 1, s.pump.rpc, s.pump.text);
    WentOutStays(s.sent, prompt, s.pump.i, s.pump.rpc);
    DispatchKeepsProven(s.box.messages, s.proofs, s.sent, prompt);
  }

  lemma ReceivedKeepsTied(s: System, batch: seq<A.Line>)
    requires Tied(s) && s.pump.Waiting?
    ensures Tied(Received(s, batch))
  {
  }

  lemma DeliveryKeepsTied(s: System)
    requires Tied(s) && s.pump.Answered? && Accepts(s.pump.outcome) && Deliver(s.box, s.pump.i).Some?
    ensures Tied(Settling(s, true))
  {
    var s', i := Settling(s, true), s.pump.i;
    ApplyMoves(s.box, DeliverOp(i));
    SequenceCarriesOver(s.sent, s.box.messages, s'.box.messages, s.lastRpc, s.lastRpc);
  }

  lemma SettlingKeepsTied(s: System, persists: bool)
    requires Tied(s) && s.pump.Answered?
    ensures Tied(Settling(s, persists))
  {
    var i := s.pump.i;
    if Accepts(s.pump.outcome) && persists {
      if Deliver(s.box, i).Some? {
        DeliveryKeepsTied(s);
      }
    } else if Lose(s.box, i, FAILED).Some? {
      StoredKeepsTied(s, LoseOp(i, FAILED), Finishing);
    }
  }

  lemma FinishKeepsTied(s: System)
    requires Tied(s)
    ensures Tied(Do(s, Finish))
  {
    if s.pump.Finishing? && Apply(s.box, CloseOp(FAILED, false)).Some? {
      StoredKeepsTied(s, CloseOp(FAILED, false), Gone);
    }
  }

  lemma WayOutKeepsTied(s: System, step: Step)
    requires Tied(s) && Valid(s.box) && (step.Next? || step.Announcing? || step.Dispatch?)
    ensures Tied(Do(s, step))
  {
    match step
    case Next => ClaimingKeepsTied(s);
    case Announcing(prompt) => if s.pump.Holding? { AnnouncedKeepsTied(s, prompt); }
    case Dispatch => if s.pump.Ready? { DispatchedKeepsTied(s); }
  }

  lemma WayBackKeepsTied(s: System, step: Step)
    requires Tied(s) && (step.Settle? || step.Finish? || step.Receive? || step.Poison?)
    ensures Tied(Do(s, step))
  {
    match step
    case Settle(persists) => if s.pump.Answered? { SettlingKeepsTied(s, persists); }
    case Finish => FinishKeepsTied(s);
    case Receive(batch) => if s.pump.Waiting? { ReceivedKeepsTied(s, batch); }
    case Poison =>
  }

  lemma PumpKeepsTied(s: System, step: Step)
    requires Tied(s) && Valid(s.box)
    requires step.Next? || step.Announcing? || step.Dispatch? || step.Settle? || step.Finish? || step.Receive? || step.Poison?
    ensures Tied(Do(s, step))
  {
    if step.Next? || step.Announcing? || step.Dispatch? {
      WayOutKeepsTied(s, step);
    } else {
      WayBackKeepsTied(s, step);
    }
  }

  lemma DoKeepsTied(s: System, step: Step)
    requires Tied(s) && Valid(s.box)
    ensures Tied(Do(s, step))
  {
    match step
    case SendMessage(owner, key, text) => SendingKeepsTied(s, owner, key, text);
    case OpenMailbox => OwnerKeepsTied(s, step);
    case CompletePrimary(_) => OwnerKeepsTied(s, step);
    case RequestCancel => OwnerKeepsTied(s, step);
    case RecoverLost => InterruptKeepsTied(s, LOST, Gone);
    case Crash =>
    case Torn(_, _) =>
    case _ => PumpKeepsTied(s, step);
  }
}
