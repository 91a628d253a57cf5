/** A mailbox whose pump lives and whose provider answers is drained and closes by itself. */
module MailboxDrain {
  import opened Wrappers
  import opened Mailbox
  import opened MailboxOrder
  import opened MailboxCrash
  import opened MailboxSystem
  import opened MailboxSafety
  import opened MailboxRuns
  import opened MailboxTheorems
  import A = AcpClient

  /** The mailbox is open, its pump lives, nobody has cancelled and no prompt has failed. */
  predicate Healthy(s: System) {
    && s.box.attempt.lifecycle.Open? && s.box.attempt.primary.Some? && !s.cancelled
    && !s.pump.Gone? && !s.pump.Finishing?
    && (s.pump.Answered? ==> Accepts(s.pump.outcome))
    && (s.pump.Ready? || s.pump.Waiting? || s.pump.Answered? ==> CanSettle(s.box, s.pump.i))
  }

  /**
   The pump takes its next step: any prompt, or none if it cannot compose one, and any batch that is a clean
   success.
   */
  ghost predicate PumpStep(s: System, step: Step) {
    match s.pump
    case Idle => step == Next
    case Holding(_, _) => step.Announcing?
    case Ready(_, _, _) => step == Dispatch
    case Waiting(_, rpc) => step.Receive? && CleanSuccess(step.batch, rpc)
    case Answered(_, _, _, _) => step == Settle(true)
    case _ => false
  }

  /**
   A step in which the pump does not die, nobody cancels and no prompt fails.  Senders send what they like,
   and may die between their two writes; steps that change nothing may happen at any time.
   */
  ghost predicate WellStep(s: System, step: Step) {
    match step
    case SendMessage(_, _, _) => true
    case Torn(op, _) => op.SendOp?
    case _ => PumpStep(s, step) || Do(s, step) == s
  }

  /** The pump could not compose a prompt for the message that it holds. */
  predicate Skips(s: System, step: Step) {
    s.pump.Holding? && step == Announcing("")
  }

  /** Steps that the pump still needs, however many messages are sent meanwhile. */
  function Needed(s: System): int {
    5 * (MAX_MESSAGES - Turnstile(s.box.messages)) + 1 -
    (match s.pump
     case Holding(_, _) => 1
     case Ready(_, _, _) => 2
     case Waiting(_, _) => 3
     case Answered(_, _, _, _) => 4
     case _ => 0)
  }

  /** The outcomes that a healthy run gives: delivered, or refused because no prompt could be composed. */
  predicate WellSettled(status: Status, skipped: bool) {
    status.Delivered? || (skipped && status == Refused(NOT_COMPOSED))
  }

  /** `b` came from `a` by sends and deliveries, and by refusals only if messages were skipped. */
  ghost predicate OnlyDelivers(a: seq<Message>, b: seq<Message>, skipped: bool) {
    && |a| <= |b|
    && forall i :: 0 <= i < |b| ==>
         if i < |a| && Done(a[i].status) then b[i] == a[i]
         else WellSettled(b[i].status, skipped) || !Done(b[i].status)
  }

  /** Closed on the final empty scan, with every message that had no outcome delivered, or skipped. */
  ghost predicate Drained(before: seq<Message>, after: Store, skipped: bool) {
    && after.attempt.lifecycle.Closed? && after.attempt.closeReason == Some(EmptyDrain)
    && |before| <= |after.messages|
    && forall i :: 0 <= i < |after.messages| ==>
         if i < |before| && Done(before[i].status) then after.messages[i] == before[i]
         else WellSettled(after.messages[i].status, skipped)
  }

  lemma OnlyDeliversChains(a: seq<Message>, b: seq<Message>, c: seq<Message>, first: bool, rest: bool)
    requires OnlyDelivers(a, b, first) && OnlyDelivers(b, c, rest)
    ensures OnlyDelivers(a, c, first || rest)
  {
    forall i | 0 <= i < |c|
      ensures if i < |a| && Done(a[i].status) then c[i] == a[i]
        else WellSettled(c[i].status, first || rest) || !Done(c[i].status)
    {
      assert i < |b| && Done(b[i].status) ==> c[i] == b[i];
    }
  }

  lemma DrainedFrom(a: seq<Message>, b: seq<Message>, after: Store, first: bool, rest: bool)
    requires OnlyDelivers(a, b, first) && Drained(b, after, rest)
    ensures Drained(a, after, first || rest)
  {
    forall i | 0 <= i < |after.messages|
      ensures if i < |a| && Done(a[i].status) then after.messages[i] == a[i]
        else WellSettled(after.messages[i].status, first || rest)
    {
      assert i < |b| && Done(b[i].status) ==> after.messages[i] == b[i];
    }
  }

  // ----- One step of the pump -----

  /** A skipped message saves three of the steps that it would have needed. */
  ghost predicate Progresses(s: System, s': System, skipped: bool) {
    && Healthy(s') && Needed(s') == Needed(s) - (if skipped then 4 else 1)
    && OnlyDelivers(s.box.messages, s'.box.messages, skipped)
  }

  lemma WaitingIsTurn(messages: seq<Message>)
    requires Turnstile(messages) < |messages| && messages[Turnstile(messages)].status.Accepted?
    ensures WaitingFrom(messages, 0) == Turnstile(messages)
  {
    var w := WaitingFrom(messages, 0);
    assert !Done(messages[Turnstile(messages)].status);
  }

  lemma ClaimProgresses(s: System)
    requires PumpAgrees(s) && Pointed(s.box.attempt, s.box.messages) && Phased(s.box.attempt, s.box.messages)
    requires Queued(s.box.messages) && Healthy(s) && s.pump.Idle? && Turnstile(s.box.messages) < |s.box.messages|
    ensures Progresses(s, Do(s, Next), false)
  {
    var t := Turnstile(s.box.messages);
    WaitingIsTurn(s.box.messages);
    AtTurnMoves(s.box.messages, Claimed(s.box.messages[t].status.body));
  }

  lemma AnnounceProgresses(s: System, prompt: string)
    requires PumpAgrees(s) && Pointed(s.box.attempt, s.box.messages) && Queued(s.box.messages)
    requires Healthy(s) && s.pump.Holding? && prompt != ""
    ensures Progresses(s, Do(s, Announcing(prompt)), false)
  {
    ActiveIsTurn(s.box.messages, s.pump.i);
    AtTurnMoves(s.box.messages, Inflight(s.lastRpc + 1, prompt));
  }

  lemma SkipProgresses(s: System)
    requires PumpAgrees(s) && Pointed(s.box.attempt, s.box.messages) && Queued(s.box.messages)
    requires Phased(s.box.attempt, s.box.messages) && Healthy(s) && s.pump.Holding?
    ensures Progresses(s, Do(s, Announcing("")), true)
  {
    ActiveIsTurn(s.box.messages, s.pump.i);
    AtTurnMoves(s.box.messages, Refused(NOT_COMPOSED));
  }

  lemma AnswerProgresses(s: System, batch: seq<A.Line>)
    requires Healthy(s) && s.pump.Waiting? && CleanSuccess(batch, s.pump.rpc)
    ensures Progresses(s, Do(s, Receive(batch)), false)
  {
    AcknowledgedIsClean(batch, s.pump.rpc);
  }

  lemma SettleProgresses(s: System)
    requires Pointed(s.box.attempt, s.box.messages) && Queued(s.box.messages) && Healthy(s) && s.pump.Answered?
    ensures Progresses(s, Do(s, Settle(true)), false)
  {
    ActiveIsTurn(s.box.messages, s.pump.i);
    AtTurnMoves(s.box.messages, Status.Delivered(TurnOfInflight(s.box, s.pump.i, true)));
  }

  lemma EmptyCloses(s: System)
    requires PumpAgrees(s) && Phased(s.box.attempt, s.box.messages)
    requires Healthy(s) && s.pump.Idle? && Turnstile(s.box.messages) == |s.box.messages|
    ensures Drained(s.box.messages, Do(s, Next).box, false)
  {
    assert WaitingFrom(s.box.messages, 0) == |s.box.messages|;
  }

  /** Each step of the pump is one of those it needs, and the last one closes. */
  lemma PumpProgresses(s: System, step: Step)
    requires PumpAgrees(s) && Pointed(s.box.attempt, s.box.messages) && Phased(s.box.attempt, s.box.messages)
    requires Queued(s.box.messages) && Healthy(s) && PumpStep(s, step)
    ensures Progresses(s, Do(s, step), Skips(s, step)) || Drained(s.box.messages, Do(s, step).box, false)
  {
    match s.pump
    case Idle => if Turnstile(s.box.messages) < |s.box.messages| { ClaimProgresses(s); } else { EmptyCloses(s); }
    case Holding(_, _) => if step.prompt == "" { SkipProgresses(s); } else { AnnounceProgresses(s, step.prompt); }
    case Ready(_, _, _) =>
    case Waiting(_, _) => AnswerProgresses(s, step.batch);
    case Answered(_, _, _, _) => SettleProgresses(s);
  }

  // ----- One send -----

  lemma AppendKeepsTurnstile(messages: seq<Message>, more: seq<Message>)
    requires forall i :: 0 <= i < |more| ==> more[i].status.Accepted?
    ensures Turnstile(messages + more) == Turnstile(messages)
  {
    var t := Turnstile(messages);
    assert forall i :: 0 <= i < t ==> (messages + more)[i] == messages[i];
    if t < |messages| {
      assert (messages + more)[t] == messages[t];
    } else if more != [] {
      assert (messages + more)[t] == more[0];
    }
    TurnstileIs(messages + more, t);
  }

  lemma SendIsAppend(s: Store, owner: string, key: string, text: string)
    requires Valid(s)
    ensures var b := Sent(s, owner, key, text);
      && |s.messages| <= |b.messages| && b.messages[..|s.messages|] == s.messages
      && (forall i :: |s.messages| <= i < |b.messages| ==> b.messages[i].status.Accepted?)
      && Turnstile(b.messages) == Turnstile(s.messages)
      && b.attempt == s.attempt.(acceptedCount := b.attempt.acceptedCount, acceptedBytes := b.attempt.acceptedBytes)
  {
    SendDecides(s, owner, key, text);
    var b := Sent(s, owner, key, text).messages;
    assert b == s.messages + b[|s.messages|..];
    AppendKeepsTurnstile(s.messages, b[|s.messages|..]);
  }

  ghost predicate Unhurried(s: System, s': System) {
    Healthy(s') && s'.pump == s.pump && Needed(s') == Needed(s) && OnlyDelivers(s.box.messages, s'.box.messages, false)
  }

  /** A send leaves the pump where it is. */
  lemma SendIsUnhurried(s: System, owner: string, key: string, text: string)
    requires Valid(s.box) && Healthy(s)
    ensures Unhurried(s, s.(box := Sent(s.box, owner, key, text)))
  {
    SendIsAppend(s.box, owner, key, text);
    var b := Sent(s.box, owner, key, text).messages;
    forall i | 0 <= i < |s.box.messages|
      ensures b[i] == s.box.messages[i]
    {
      assert b[..|s.box.messages|][i] == b[i];
    }
  }

  /** A sender that dies between its two writes has sent. */
  lemma TornSend(s: System, op: Op, left: Store)
    requires Valid(s.box) && op.SendOp?
    ensures var s' := Seen(TornAt(s, op, left)); s' == s || s' == s.(box := Sent(s.box, op.owner, op.key, op.text))
  {
    if UnderWay(s, op) && Leaves(s.box, op, left) {
      CrashIsRecovered(s.box, op, left);
    } else {
      RecoverIsIdle(s.box);
    }
  }

  lemma SendingIsUnhurried(s: System, owner: string, key: string, text: string)
    requires Valid(s.box) && Healthy(s)
    ensures Unhurried(s, Sending(s, owner, key, text))
  {
    SendIsUnhurried(s, owner, key, text);
    assert Sending(s, owner, key, text) == s || Sending(s, owner, key, text) == s.(box := Sent(s.box, owner, key, text));
  }

  lemma TornIsUnhurried(s: System, step: Step)
    requires Inv(s) && Healthy(Seen(s)) && step.Torn? && step.op.SendOp?
    ensures Unhurried(Seen(s), Seen(Exec(s, step)))
  {
    TornSend(Seen(s), step.op, step.left);
    SendIsUnhurried(Seen(s), step.op.owner, step.op.key, step.op.text);
  }

  /** What senders do, and what does nothing, leaves the pump where it is. */
  lemma OthersAreUnhurried(s: System, step: Step)
    requires Inv(s) && Healthy(Seen(s)) && WellStep(Seen(s), step) && !PumpStep(Seen(s), step)
    ensures Unhurried(Seen(s), Seen(Exec(s, step)))
  {
    if step.Torn? {
      TornIsUnhurried(s, step);
    } else {
      SeenDo(s, step);
      if step.SendMessage? {
        SendingIsUnhurried(Seen(s), step.owner, step.key, step.text);
      }
    }
  }

  // ----- Every run -----

  ghost predicate WellRun(s: System, steps: seq<Step>)
    decreases |steps|
  {
    steps != [] && Healthy(Seen(s)) ==> WellStep(Seen(s), steps[0]) && WellRun(Exec(s, steps[0]), steps[1..])
  }

  /** How many of the steps the pump took while the mailbox was open. */
  ghost function PumpWork(s: System, steps: seq<Step>): nat
    decreases |steps|
  {
    if steps == [] || !Healthy(Seen(s)) then 0
    else (if PumpStep(Seen(s), steps[0]) then 1 else 0) + PumpWork(Exec(s, steps[0]), steps[1..])
  }

  /** How many messages the pump skipped. */
  ghost function Skipped(s: System, steps: seq<Step>): nat
    decreases |steps|
  {
    if steps == [] || !Healthy(Seen(s)) then 0
    else (if Skips(Seen(s), steps[0]) then 1 else 0) + Skipped(Exec(s, steps[0]), steps[1..])
  }

  lemma NeededIsPositive(s: System)
    requires Tied(s) && Valid(s.box) && Healthy(s)
    ensures 1 <= Needed(s) <= 161
  {
  }

  lemma DrainedStays(s: System, before: seq<Message>, steps: seq<Step>, skipped: bool)
    requires Inv(s) && Drained(before, Seen(s).box, skipped)
    ensures Drained(before, Seen(Run(s, steps)).box, skipped)
  {
    NothingAfterClose(s, steps);
  }

  lemma WellStepGoesOn(s: System, step: Step)
    requires Inv(s) && Healthy(Seen(s)) && WellStep(Seen(s), step)
    ensures PumpStep(Seen(s), step) ==>
      || Progresses(Seen(s), Seen(Exec(s, step)), Skips(Seen(s), step))
      || Drained(Seen(s).box.messages, Seen(Exec(s, step)).box, false)
    ensures !PumpStep(Seen(s), step) ==> Unhurried(Seen(s), Seen(Exec(s, step)))
  {
    if PumpStep(Seen(s), step) {
      SeenDo(s, step);
      PumpProgresses(Seen(s), step);
    } else {
      OthersAreUnhurried(s, step);
    }
  }

  /** Where a run of a healthy mailbox stands: it is drained, or exactly so many steps are still needed. */
  ghost predicate Drains(s: System, s': System, work: nat, skipped: nat) {
    || Drained(s.box.messages, s'.box, skipped > 0)
    || (&& Healthy(s') && OnlyDelivers(s.box.messages, s'.box.messages, skipped > 0)
        && Needed(s') + work + 3 * skipped == Needed(s))
  }

  /**
   If sends win the race they are drained.  In every run in which the pump is not killed, nobody cancels and
   every prompt is answered by a clean success, whatever senders do in between, each pump step is one of
   those still needed; after as many as were needed at the start the mailbox is closed on the empty scan, and
   every message accepted at any time in the run, and not settled before it, is delivered, unless no prompt
   could be composed for it.
   */
  lemma {:induction false} EveryRunDrains(s: System, steps: seq<Step>)
    requires Inv(s) && Healthy(Seen(s)) && WellRun(s, steps)
    ensures Drains(Seen(s), Seen(Run(s, steps)), PumpWork(s, steps), Skipped(s, steps))
    decreases |steps|
  {
    if steps == [] {
      EmptyRunDrains(s);
    } else {
      FirstStepGoesOn(s, steps);
      if Healthy(Seen(Exec(s, steps[0]))) {
        EveryRunDrains(Exec(s, steps[0]), steps[1..]);
        StepThenDrains(s, steps);
      } else {
        DrainedAtOnce(s, steps);
      }
    }
  }

  lemma EmptyRunDrains(s: System)
    requires Healthy(Seen(s))
    ensures Drains(Seen(s), Seen(Run(s, [])), PumpWork(s, []), Skipped(s, []))
  {
  }

  /** The first step of a run makes progress, leaves the pump alone, or drains the mailbox. */
  lemma FirstStepGoesOn(s: System, steps: seq<Step>)
    requires Inv(s) && Healthy(Seen(s)) && WellRun(s, steps) && steps != []
    ensures Inv(Exec(s, steps[0])) && WellRun(Exec(s, steps[0]), steps[1..])
    ensures var a, b, step := Seen(s), Seen(Exec(s, steps[0])), steps[0];
      if Healthy(b) then if PumpStep(a, step) then Progresses(a, b, Skips(a, step)) else Unhurried(a, b)
      else Drained(a.box.messages, b.box, false)
  {
    ExecKeepsInv(s, steps[0]);
    WellStepGoesOn(s, steps[0]);
  }

  lemma DrainedAtOnce(s: System, steps: seq<Step>)
    requires steps != [] && Inv(Exec(s, steps[0])) && Drained(Seen(s).box.messages, Seen(Exec(s, steps[0])).box, false)
    ensures Drained(Seen(s).box.messages, Seen(Run(s, steps)).box, false)
    ensures Drains(Seen(s), Seen(Run(s, steps)), PumpWork(s, steps), Skipped(s, steps))
  {
    DrainedStays(Exec(s, steps[0]), Seen(s).box.messages, steps[1..], false);
  }

  lemma StepThenDrains(s: System, steps: seq<Step>)
    requires steps != [] && Healthy(Seen(s)) && Healthy(Seen(Exec(s, steps[0])))
    requires var a, b, step := Seen(s), Seen(Exec(s, steps[0])), steps[0];
      if PumpStep(a, step) then Progresses(a, b, Skips(a, step)) else Unhurried(a, b)
    requires var s' := Exec(s, steps[0]);
      Drains(Seen(s'), Seen(Run(s', steps[1..])), PumpWork(s', steps[1..]), Skipped(s', steps[1..]))
    ensures Drains(Seen(s), Seen(Run(s, steps)), PumpWork(s, steps), Skipped(s, steps))
  {
    Compose(Seen(s), Seen(Exec(s, steps[0])), Seen(Run(s, steps)), Skips(Seen(s), steps[0]),
            Skipped(Exec(s, steps[0]), steps[1..]) > 0);
  }

  lemma Compose(a: System, b: System, c: System, first: bool, rest: bool)
    requires OnlyDelivers(a.box.messages, b.box.messages, first)
    ensures Drained(b.box.messages, c.box, rest) ==> Drained(a.box.messages, c.box, first || rest)
    ensures OnlyDelivers(b.box.messages, c.box.messages, rest) ==> OnlyDelivers(a.box.messages, c.box.messages, first || rest)
  {
    if Drained(b.box.messages, c.box, rest) {
      DrainedFrom(a.box.messages, b.box.messages, c.box, first, rest);
    }
    if OnlyDelivers(b.box.messages, c.box.messages, rest) {
      OnlyDeliversChains(a.box.messages, b.box.messages, c.box.messages, first, rest);
    }
  }

  /**
   After as many pump steps as were needed at the start, never more than 161, the mailbox is drained; and if
   every prompt could be composed, every such message is delivered.
   */
  lemma EnoughStepsDrain(s: System, steps: seq<Step>)
    requires Inv(s) && Healthy(Seen(s)) && WellRun(s, steps)
    ensures Needed(Seen(s)) <= 161
    ensures PumpWork(s, steps) >= Needed(Seen(s)) ==>
      Drained(Seen(s).box.messages, Seen(Run(s, steps)).box, Skipped(s, steps) > 0)
  {
    NeededIsPositive(Seen(s));
    EveryRunDrains(s, steps);
    RunKeepsInv(s, steps);
    if Healthy(Seen(Run(s, steps))) {
      NeededIsPositive(Seen(Run(s, steps)));
    }
  }

  /** A prompt response as a provider may send it for a completed turn. */
  function Completion(rpc: nat): seq<A.Line> {
    [A.Message(A.Frame(A.V2, Some(A.Number(rpc)), A.Absent, None, Some(A.Stopped(A.EndTurn, false)), false, false))]
  }

  lemma CompletionIsClean(rpc: nat)
    ensures CleanSuccess(Completion(rpc), rpc)
  {
    assert A.Answers(Completion(rpc)[0], rpc);
    assert A.AnswerTo(Completion(rpc), 0, rpc).None?;
  }

  /** The pump never has to wait for anything but the answer to its prompt. */
  lemma PumpIsNeverStuck(s: System) returns (step: Step)
    requires Healthy(s)
    ensures PumpStep(s, step)
  {
    match s.pump
    case Idle => step := Next;
    case Holding(_, _) => step := Announcing("prompt");
    case Ready(_, _, _) => step := Dispatch;
    case Waiting(_, rpc) =>
      CompletionIsClean(rpc);
      step := Receive(Completion(rpc));
    case Answered(_, _, _, _) => step := Settle(true);
  }
}
