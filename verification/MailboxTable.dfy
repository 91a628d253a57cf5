/**
 The operations on the mailbox records as a table: when each is possible, and what each field is afterwards.
 It is written apart from the operations, by field instead of by operation, and leaves out every guard that
 records in order already meet; the theorem is that both say the same.
 */
module MailboxTable {
  import opened Wrappers
  import opened Texts
  import opened Mailbox
  import opened MailboxOrder
  import opened MailboxCrash
  import opened MailboxTheorems

  /** The message that was announced and has no outcome yet, by the aggregate's own pointer. */
  function OnTheWire(s: Store): Option<nat> {
    if s.attempt.active.Some? && 0 < s.attempt.active.value <= |s.messages|
       && s.messages[s.attempt.active.value - 1].status.Inflight?
    then Some((s.attempt.active.value - 1) as nat) else None
  }

  /** The row of each operation. */
  ghost predicate Possible(s: Store, op: Op) {
    var a, n := s.attempt, |s.messages|;
    match op
    case OpenOp => a.lifecycle == Preparing || a.lifecycle == Open
    case PrimaryOp(_) => a.lifecycle == Open && a.primary == None
    case SendOp(_, _, _) => true
    case ClaimOp =>
      a.lifecycle == Open && a.primary != None && a.active == None && exists i :: 0 <= i < n && s.messages[i].status.Accepted?
    case AnnounceOp(i, _, _) => i < n && s.messages[i].status == Claimed(s.messages[i].content)
    case DeliverOp(i) => OnTheWire(s) == Some(i)
    case LoseOp(i, _) => OnTheWire(s) == Some(i)
    case RejectOp(i, _) => i < n && s.messages[i].status == Claimed(s.messages[i].content)
    case CloseOp(_, recovery) =>
      (a.lifecycle == Preparing ==> recovery) && forall i :: 0 <= i < n ==> Done(s.messages[i].status)
    case InterruptOp(_) => true
  }

  /** The turn that ends with message `i`, delivered or unknown. */
  function TurnOn(s: Store, i: nat, delivered: bool): Chain
    requires OnTheWire(s) == Some(i)
  {
    var m := s.messages[i];
    Link(s.attempt.chain, m.sequence, m.content, m.status.prompt, delivered, Some(m.status.rpc))
  }

  /** What a loss makes of message `j`: the one on the wire is unknown, no other may go out any more. */
  function AfterLoss(s: Store, i: nat, reason: Reason, j: nat): Status
    requires OnTheWire(s) == Some(i) && j < |s.messages|
  {
    if j == i then DeliveryUnknown(TurnOn(s, i, false), reason)
    else if j > i then Refused(BlockedByPriorUnknown)
    else s.messages[j].status
  }

  /** The status of message `j` after a possible operation, no send. */
  function StatusAfter(s: Store, op: Op, j: nat): Status
    requires Possible(s, op) && j < |s.messages|
  {
    var status := s.messages[j].status;
    match op
    case ClaimOp => if j == Turnstile(s.messages) then Claimed(s.messages[j].content) else status
    case AnnounceOp(i, rpc, prompt) => if j == i then Inflight(rpc, prompt) else status
    case DeliverOp(i) => if j == i then Status.Delivered(TurnOn(s, i, true)) else status
    case LoseOp(i, reason) => AfterLoss(s, i, reason, j)
    case RejectOp(i, reason) => if j == i then Refused(reason) else status
    case InterruptOp(reason) =>
      if OnTheWire(s).Some? then AfterLoss(s, OnTheWire(s).value, reason, j)
      else if status == Accepted(s.messages[j].content) || status == Claimed(s.messages[j].content) then Refused(reason)
      else status
    case _ => status
  }

  function FirstReason(a: Attempt, reason: Reason): Option<Reason> {
    if a.closeReason.Some? then a.closeReason else Some(reason)
  }

  /** The aggregate after a possible operation, no send: lifecycle, counters, chain, pointers and reason. */
  function AttemptAfter(s: Store, op: Op): Attempt
    requires Possible(s, op)
  {
    var a := s.attempt;
    match op
    case OpenOp => a.(lifecycle := Open)
    case PrimaryOp(content) =>
      var turn := Link(Genesis(a.binding), 0, content, content, true, None);
      Attempt(a.binding, Open, a.acceptedCount, a.acceptedBytes, turn, Some(turn), Some(0), None, None, None)
    case ClaimOp => a.(active := Some(Turnstile(s.messages) + 1))
    case RejectOp(_, _) => a.(active := None)
    case DeliverOp(i) => a.(chain := TurnOn(s, i, true), last := Some(i + 1), active := None)
    case LoseOp(i, reason) => Unsettled(s, i, reason, Closing)
    case CloseOp(reason, _) => a.(lifecycle := Closed, closeReason := FirstReason(a, reason))
    case InterruptOp(reason) =>
      if OnTheWire(s).Some? then Unsettled(s, OnTheWire(s).value, reason, Closed)
      else a.(lifecycle := Closed, active := None, closeReason := FirstReason(a, reason))
    case _ => a
  }

  function Unsettled(s: Store, i: nat, reason: Reason, lifecycle: Lifecycle): Attempt
    requires OnTheWire(s) == Some(i)
  {
    var a := s.attempt;
    Attempt(a.binding, lifecycle, a.acceptedCount, a.acceptedBytes, TurnOn(s, i, false), a.primary,
            Some(i + 1), Some(i + 1), None, Some(reason))
  }

  /** All records after a possible operation. */
  ghost function After(s: Store, op: Op): Store
    requires Possible(s, op)
  {
    match op
    case SendOp(owner, key, text) =>
      if Acceptable(s, key, text) then
        Store(s.attempt.(acceptedCount := |s.messages| + 1, acceptedBytes := |Encode(Contents(s.messages) + text)|),
              s.messages + [Stored(s, owner, key, text)], s.turnedAway)
      else if exists reason :: Answers(s, owner, key, text, Declined(reason)) then
        var reason :| Answers(s, owner, key, text, Declined(reason));
        Store(s.attempt, s.messages, s.turnedAway[key := TurnedAway(owner, text, reason)])
      else s
    case _ =>
      Store(AttemptAfter(s, op),
            seq(|s.messages|, j requires 0 <= j < |s.messages| => s.messages[j].(status := StatusAfter(s, op, j))),
            s.turnedAway)
  }

  // ----- Where the pointers point -----

  /** In records in order an active message is the one whose turn it is, and the aggregate points to it. */
  lemma ActiveIsPointed(s: Store, i: nat)
    requires Valid(s) && i < |s.messages| && Active(s.messages[i].status)
    ensures i == Turnstile(s.messages) && s.attempt.active == Some(i + 1)
    ensures s.attempt.primary.Some? && s.attempt.lifecycle.Open? && s.attempt.unknown.None?
    ensures forall j :: i < j < |s.messages| ==> s.messages[j].status == Accepted(s.messages[j].content)
    ensures s.messages[i].status.Claimed? ==> s.messages[i].status.body == s.messages[i].content
  {
  }

  lemma WireIsActive(s: Store, i: nat)
    requires Valid(s) && i < |s.messages|
    ensures OnTheWire(s) == Some(i) <==> s.messages[i].status.Inflight?
    ensures OnTheWire(s) == Some(i) ==> CanSettle(s, i) && FirstInflight(s.messages, 0) == i
  {
    if s.messages[i].status.Inflight? {
      ActiveIsPointed(s, i);
    }
  }

  lemma NothingOnTheWire(s: Store)
    requires Valid(s) && OnTheWire(s).None?
    ensures FirstInflight(s.messages, 0) == |s.messages|
    ensures forall j :: 0 <= j < |s.messages| && !Done(s.messages[j].status) ==>
      s.messages[j].status == Accepted(s.messages[j].content) || s.messages[j].status == Claimed(s.messages[j].content)
  {
    var f := FirstInflight(s.messages, 0);
    if f < |s.messages| {
      WireIsActive(s, f);
    }
  }

  ghost predicate Follows(s: Store, op: Op) {
    Apply(s, op) == if Possible(s, op) then Some(After(s, op)) else None
  }

  lemma SendFollows(s: Store, owner: string, key: string, text: string)
    requires Valid(s)
    ensures Follows(s, SendOp(owner, key, text))
  {
    SendDecides(s, owner, key, text);
    var outcome := SendOutcome(s, owner, key, text);
    SendAnswers(s, owner, key, text, outcome);
    forall reason | Answers(s, owner, key, text, Declined(reason))
      ensures outcome == Declined(reason)
    {
      SendAnswers(s, owner, key, text, Declined(reason));
    }
  }

  lemma OpeningFollows(s: Store, op: Op)
    requires Valid(s) && (op.OpenOp? || op.PrimaryOp?)
    ensures Follows(s, op)
  {
    if Possible(s, op) {
      assert After(s, op).messages == s.messages;
    }
    if s.attempt.active.Some? {
      ActiveIsPointed(s, Turnstile(s.messages));
    }
  }

  lemma ClaimFollows(s: Store)
    requires Valid(s)
    ensures Follows(s, ClaimOp)
  {
    if Apply(s, ClaimOp).Some? {
      var w := WaitingFrom(s.messages, 0);
      ClaimTakesTurn(s);
      assert s.messages[w].status.Accepted?;
      assert After(s, ClaimOp).messages == Claim(s).value.messages;
    }
  }

  lemma HeldFollows(s: Store, op: Op)
    requires Valid(s) && (op.AnnounceOp? || op.RejectOp?)
    ensures Follows(s, op)
  {
    if op.i < |s.messages| && Active(s.messages[op.i].status) {
      ActiveIsPointed(s, op.i);
    }
    if Apply(s, op).Some? {
      assert After(s, op).messages == Apply(s, op).value.messages;
    }
  }

  lemma DeliverFollows(s: Store, i: nat)
    requires Valid(s)
    ensures Follows(s, DeliverOp(i))
  {
    if i < |s.messages| {
      WireIsActive(s, i);
      if OnTheWire(s) == Some(i) {
        assert After(s, DeliverOp(i)).messages == Deliver(s, i).value.messages;
      }
    }
  }

  lemma LossBlocksTheRest(s: Store, i: nat, reason: Reason)
    requires Valid(s) && OnTheWire(s) == Some(i)
    ensures BlockedTo(s.messages, i, DeliveryUnknown(TurnOn(s, i, false), reason), |s.messages|) ==
      seq(|s.messages|, j requires 0 <= j < |s.messages| => s.messages[j].(status := AfterLoss(s, i, reason, j)))
  {
    ActiveIsPointed(s, i);
  }

  lemma TurnsAlike(s: Store, i: nat, delivered: bool)
    requires Valid(s) && OnTheWire(s) == Some(i)
    ensures CanSettle(s, i) && TurnOfInflight(s, i, delivered) == TurnOn(s, i, delivered) && s.attempt.lifecycle.Open?
  {
    ActiveIsPointed(s, i);
  }

  lemma LossIsUnsettled(s: Store, i: nat, reason: Reason)
    requires Valid(s) && OnTheWire(s) == Some(i)
    ensures Lose(s, i, reason) == Some(After(s, LoseOp(i, reason)))
  {
    TurnsAlike(s, i, false);
    LossBlocksTheRest(s, i, reason);
    assert After(s, LoseOp(i, reason)).messages == Lose(s, i, reason).value.messages;
  }

  lemma LoseFollows(s: Store, i: nat, reason: Reason)
    requires Valid(s)
    ensures Follows(s, LoseOp(i, reason))
  {
    if i < |s.messages| {
      WireIsActive(s, i);
      if OnTheWire(s) == Some(i) {
        LossIsUnsettled(s, i, reason);
      }
    }
  }

  lemma CloseFollows(s: Store, reason: Reason, recovery: bool)
    requires Valid(s)
    ensures Follows(s, CloseOp(reason, recovery))
  {
    var op := CloseOp(reason, recovery);
    if Possible(s, op) {
      assert After(s, op).messages == s.messages;
    }
  }

  lemma InterruptOnTheWire(s: Store, i: nat, reason: Reason)
    requires Valid(s) && OnTheWire(s) == Some(i)
    ensures Interrupt(s, reason) == Some(After(s, InterruptOp(reason)))
  {
    WireIsActive(s, i);
    TurnsAlike(s, i, false);
    InterruptCloses(s, reason);
    LossIsUnsettled(s, i, reason);
    assert After(s, InterruptOp(reason)).messages == After(s, LoseOp(i, reason)).messages;
  }

  lemma InterruptWhenClosed(s: Store, reason: Reason)
    requires Valid(s) && s.attempt.lifecycle.Closed?
    ensures Interrupt(s, reason) == Some(After(s, InterruptOp(reason)))
  {
    assert OnTheWire(s).None?;
    assert After(s, InterruptOp(reason)).messages == s.messages;
  }

  lemma RefusesWhatWaits(s: Store, reason: Reason)
    requires Numbered(s.messages) && OnTheWire(s).None?
    ensures RefusedTo(s.messages, |s.messages|, reason) == After(s, InterruptOp(reason)).messages
  {
  }

  lemma InterruptInPeace(s: Store, reason: Reason)
    requires Valid(s) && OnTheWire(s).None? && !s.attempt.lifecycle.Closed?
    ensures Interrupt(s, reason) == Some(After(s, InterruptOp(reason)))
  {
    NothingOnTheWire(s);
    InterruptCloses(s, reason);
    RefusesWhatWaits(s, reason);
  }

  lemma InterruptFollows(s: Store, reason: Reason)
    requires Valid(s)
    ensures Interrupt(s, reason) == Some(After(s, InterruptOp(reason)))
  {
    if OnTheWire(s).Some? {
      InterruptOnTheWire(s, OnTheWire(s).value, reason);
    } else if s.attempt.lifecycle.Closed? {
      InterruptWhenClosed(s, reason);
    } else {
      InterruptInPeace(s, reason);
    }
  }

  /** On records in order every operation is possible exactly by its row, and then leaves exactly what the table says. */
  lemma ApplyFollowsTheTable(s: Store, op: Op)
    requires Valid(s)
    ensures Apply(s, op) == if Possible(s, op) then Some(After(s, op)) else None
  {
    match op
    case OpenOp => OpeningFollows(s, op);
    case PrimaryOp(_) => OpeningFollows(s, op);
    case SendOp(owner, key, text) => SendFollows(s, owner, key, text);
    case ClaimOp => ClaimFollows(s);
    case AnnounceOp(_, _, _) => HeldFollows(s, op);
    case RejectOp(_, _) => HeldFollows(s, op);
    case DeliverOp(i) => DeliverFollows(s, i);
    case LoseOp(i, reason) => LoseFollows(s, i, reason);
    case CloseOp(reason, recovery) => CloseFollows(s, reason, recovery);
    case InterruptOp(reason) => InterruptFollows(s, reason);
  }
}
