/**
 The steps of senders, pump and transport as a table: which operation on the records each one is, and what
 the pump, the ids, the wire and the proofs are afterwards, each field by itself.
 */
module MailboxSteps {
  import opened Wrappers
  import opened Mailbox
  import opened MailboxOrder
  import opened MailboxCrash
  import opened MailboxSystem
  import opened MailboxRuns
  import opened MailboxTheorems
  import A = AcpClient

  /** The answer that counts as a success: one of three stop reasons. */
  predicate Success(outcome: A.Outcome) {
    outcome.Resolved? && outcome.result.Stopped?
    && outcome.result.reason in {A.EndTurn, A.MaxTokens, A.MaxTurnRequests}
  }

  ghost predicate Waiting(s: Store) {
    exists i :: 0 <= i < |s.messages| && s.messages[i].status.Accepted?
  }

  /** The operation on the records that a step is, if it is one. */
  ghost function OpOf(s: System, step: Step): Option<Op> {
    var a := s.box.attempt;
    match step
    case OpenMailbox => if s.pump == Gone then None else Some(OpenOp)
    case CompletePrimary(content) => if s.pump == Idle then Some(PrimaryOp(content)) else None
    case SendMessage(owner, key, text) =>
      if !WellFormed(key, text) || Answers(s.box, owner, key, text, Conflict) then None
      else if !s.cancelled then Some(SendOp(owner, key, text))
      else if a.lifecycle == Open then Some(InterruptOp(Because("provider-cancelled")))
      else None
    case Next =>
      if s.pump != Idle || a.primary == None || a.lifecycle != Open then None
      else if s.cancelled then Some(InterruptOp(Because("provider-cancelled")))
      else if a.active != None then None
      else if Waiting(s.box) then Some(ClaimOp)
      else Some(CloseOp(EmptyDrain, false))
    case Announcing(prompt) =>
      if !s.pump.Holding? then None
      else if prompt == "" then Some(RejectOp(s.pump.i, Because("compose-failed")))
      else if s.cancelled then Some(InterruptOp(Because("provider-cancelled")))
      else Some(AnnounceOp(s.pump.i, s.lastRpc + 1, prompt))
    case Settle(persists) =>
      if !s.pump.Answered? then None
      else if Success(s.pump.outcome) && persists then Some(DeliverOp(s.pump.i))
      else Some(LoseOp(s.pump.i, Because("prompt-failed")))
    case Finish => if s.pump == Finishing then Some(CloseOp(Because("prompt-failed"), false)) else None
    case RecoverLost => if s.pump == Gone then Some(InterruptOp(Because("provider-process-lost"))) else None
    case _ => None
  }

  /** The operation of the step takes effect. */
  ghost predicate Effective(s: System, step: Step) {
    OpOf(s, step).Some? && Apply(s.box, OpOf(s, step).value).Some?
  }

  ghost function BoxAfter(s: System, step: Step): Store {
    if Effective(s, step) then Apply(s.box, OpOf(s, step).value).value else s.box
  }

  /** Where the pump stands afterwards. */
  ghost function PumpAfter(s: System, step: Step): Pump {
    match step
    case Next =>
      if s.pump != Idle || s.box.attempt.primary == None then s.pump
      else if OpOf(s, step) == Some(ClaimOp) then
        var t := Turnstile(s.box.messages);
        if t < |s.box.messages| then Holding(t, s.box.messages[t].content) else Gone
      else Gone
    case Announcing(prompt) =>
      if !s.pump.Holding? then s.pump
      else if prompt == "" then if Effective(s, step) then Idle else Gone
      else if Effective(s, step) && !s.cancelled then Ready(s.pump.i, s.lastRpc + 1, prompt)
      else Gone
    case Dispatch => if s.pump.Ready? then Pump.Waiting(s.pump.i, s.pump.rpc) else s.pump
    case Receive(batch) =>
      if !s.pump.Waiting? then s.pump
      else
        var verdict := A.Verdict(batch, map[s.pump.rpc := A.Prompt], s.pump.rpc);
        if verdict == None then s.pump else Answered(s.pump.i, s.pump.rpc, batch, verdict.value)
    case Poison =>
      if s.pump.Ready? || s.pump.Waiting? || s.pump.Answered? then Answered(s.pump.i, s.pump.rpc, [], A.Rejected) else s.pump
    case Settle(persists) =>
      if !s.pump.Answered? then s.pump
      else if !Effective(s, step) then Gone
      else if Success(s.pump.outcome) && persists then Idle
      else Finishing
    case Finish => if Effective(s, step) then Gone else s.pump
    case Crash => Gone
    case _ => s.pump
  }

  /** The whole system after a step. */
  ghost function Expected(s: System, step: Step): System {
    System(
      BoxAfter(s, step),
      PumpAfter(s, step),
      s.cancelled || step == RequestCancel,
      if Effective(s, step) && OpOf(s, step).value.AnnounceOp? then s.lastRpc + 1 else s.lastRpc,
      if step == Dispatch && s.pump.Ready? then s.sent + [Prompt(s.pump.i + 1, s.pump.rpc, s.pump.text)] else s.sent,
      if Effective(s, step) && OpOf(s, step).value.DeliverOp? then s.proofs[s.pump.i := s.pump.batch] else s.proofs)
  }

  // ----- The theorem -----

  lemma SuccessIsAccepted(outcome: A.Outcome)
    ensures Success(outcome) <==> Accepts(outcome)
  {
  }

  lemma SendingFollows(s: System, owner: string, key: string, text: string)
    requires Valid(s.box)
    ensures Sending(s, owner, key, text) == Expected(s, SendMessage(owner, key, text))
  {
    UsableIsWellFormed(key, text);
    if WellFormed(key, text) {
      ConflictIsAnswered(s.box, owner, key, text);
    }
  }

  lemma ConflictIsAnswered(s: Store, owner: string, key: string, text: string)
    requires Valid(s) && WellFormed(key, text)
    ensures Answers(s, owner, key, text, Conflict) <==> ReplayOf(s, owner, key, text) == Some(Conflict)
  {
    if Fresh(s, key) {
      assert ReplayOf(s, owner, key, text).None?;
    } else {
      KnownKeyAnswers(s, owner, key, text, Conflict);
    }
  }

  /** With nothing active the first open message, if any, waits; if none waits, all are done. */
  lemma NothingActive(s: Store)
    requires Valid(s) && s.attempt.active.None? && s.attempt.lifecycle.Open?
    ensures var t := Turnstile(s.messages);
      (t < |s.messages| <==> Waiting(s)) && WaitingFrom(s.messages, 0) == t
      && (t < |s.messages| ==> s.messages[t].status == Accepted(s.messages[t].content))
    ensures !Waiting(s) ==> forall i :: 0 <= i < |s.messages| ==> Done(s.messages[i].status)
    ensures s.attempt.unknown.None?
  {
    var t := Turnstile(s.messages);
    var w := WaitingFrom(s.messages, 0);
    assert w < |s.messages| ==> !Done(s.messages[w].status);
  }

  /** Exactly one of a claim and a close is possible then. */
  predicate Decided(s: Store, t: nat, waiting: bool) {
    && Apply(s, ClaimOp).Some? == waiting
    && (waiting ==> WaitingFrom(s.messages, 0) == t < |s.messages| && s.messages[t].status == Accepted(s.messages[t].content))
    && (!waiting ==> Apply(s, CloseOp(EmptyDrain, false)).Some?)
  }

  lemma ClaimOrClose(s: Store)
    requires Valid(s) && s.attempt.active.None? && s.attempt.lifecycle.Open? && s.attempt.primary.Some?
    ensures Decided(s, Turnstile(s.messages), Waiting(s))
  {
    NothingActive(s);
  }

  lemma ClaimingFollows(s: System)
    requires s.pump.Idle? && s.box.attempt.primary.Some? && Apply(s.box, InterruptOp(CANCELLED)).Some?
    requires s.box.attempt.active.None? && s.box.attempt.lifecycle.Open? ==>
      Decided(s.box, Turnstile(s.box.messages), Waiting(s.box))
    ensures Claiming(s) == Expected(s, Next)
  {
  }

  lemma NextFollows(s: System)
    requires Valid(s.box)
    ensures Do(s, Next) == Expected(s, Next)
  {
    if s.pump.Idle? && s.box.attempt.primary.Some? {
      InterruptCloses(s.box, CANCELLED);
      if s.box.attempt.active.None? && s.box.attempt.lifecycle.Open? {
        ClaimOrClose(s.box);
      }
      ClaimingFollows(s);
    }
  }

  lemma AnnouncedFollows(s: System, prompt: string)
    requires s.pump.Holding? && Apply(s.box, InterruptOp(CANCELLED)).Some?
    ensures Announced(s, prompt) == Expected(s, Announcing(prompt))
  {
  }

  lemma SettlingFollows(s: System, persists: bool)
    requires s.pump.Answered?
    ensures Settling(s, persists) == Expected(s, Settle(persists))
  {
    SuccessIsAccepted(s.pump.outcome);
  }

  lemma OtherStepsFollow(s: System, step: Step)
    requires !step.Torn? && !step.SendMessage? && !step.Next? && !step.Announcing? && !step.Settle?
    ensures Do(s, step) == Expected(s, step)
  {
  }

  lemma AnnouncingFollows(s: System, prompt: string)
    requires Valid(s.box)
    ensures Do(s, Announcing(prompt)) == Expected(s, Announcing(prompt))
  {
    InterruptCloses(s.box, CANCELLED);
    if s.pump.Holding? {
      AnnouncedFollows(s, prompt);
    }
  }

  lemma SettleFollows(s: System, persists: bool)
    ensures Do(s, Settle(persists)) == Expected(s, Settle(persists))
  {
    if s.pump.Answered? {
      SettlingFollows(s, persists);
    }
  }

  lemma StepFollows(s: System, step: Step)
    requires Valid(s.box) && !step.Torn?
    ensures Do(s, step) == Expected(s, step)
  {
    match step
    case SendMessage(owner, key, text) => SendingFollows(s, owner, key, text);
    case Next => NextFollows(s);
    case Announcing(prompt) => AnnouncingFollows(s, prompt);
    case Settle(persists) => SettleFollows(s, persists);
    case _ => OtherStepsFollow(s, step);
  }

  /** In every run each step that is not torn leaves exactly the system that the table says, over the records as mended. */
  lemma StepsFollowTheTable(binding: nat, lastRpc: nat, steps: seq<Step>, step: Step)
    requires !step.Torn?
    ensures Exec(Reached(binding, lastRpc, steps), step) == Expected(After(binding, lastRpc, steps), step)
  {
    var s := Reached(binding, lastRpc, steps);
    StepFollows(Seen(s), step);
  }
}
