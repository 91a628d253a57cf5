/**
 The mailbox at work: senders, the one provider-owned pump and the provider transport, interleaved in
 any order.  The pump may die between any two steps, and any operation may die between two of its
 writes.  A run is a sequence of steps chosen by an adversary; a step that is not enabled does nothing.
 */
module MailboxSystem {
  import opened Wrappers
  import opened Mailbox
  import opened MailboxOrder
  import opened MailboxCrash
  import A = AcpClient

  /** One prompt put on the wire. */
  datatype Prompt = Prompt(sequence: nat, rpc: nat, text: string)

  /** Where the pump is within the turn of message `i`; `Gone` once it has stopped or died. */
  datatype Pump =
    | Idle
    | Holding(i: nat, body: string)
    | Ready(i: nat, rpc: nat, text: string)
    | Waiting(i: nat, rpc: nat)
    | Answered(i: nat, rpc: nat, batch: seq<A.Line>, outcome: A.Outcome)
    | Finishing
    | Gone

  /** `proofs` keeps, for every delivered message, the stdout batch that settled it. */
  datatype System = System(
    box: Store,
    pump: Pump,
    cancelled: bool,
    lastRpc: nat,
    sent: seq<Prompt>,
    proofs: map<nat, seq<A.Line>>)

  datatype Step =
    // the owner of the attempt and its senders
    | OpenMailbox
    | CompletePrimary(content: string)
    | SendMessage(owner: string, key: string, text: string)
    | RequestCancel
    // the pump
    | Next
    | Announcing(prompt: string)
    | Dispatch
    | Settle(persists: bool)
    | Finish
    // the provider transport
    | Receive(batch: seq<A.Line>)
    | Poison
    // faults and recovery
    | Crash
    | Torn(op: Op, left: Store)
    | RecoverLost

  function Initial(binding: nat, lastRpc: nat): System {
    System(Prepared(binding), Idle, false, lastRpc, [], map[])
  }

  /** The store as every operation first reads it. */
  function Mended(box: Store): Store {
    var r := Recover(box);
    if r.Some? then r.value else box
  }

  function Stored(s: System, op: Op, pump: Pump): System {
    var box := Apply(s.box, op);
    if box.Some? then s.(box := box.value, pump := pump) else s
  }

  predicate Accepts(outcome: A.Outcome) {
    outcome.Resolved? && outcome.result.Stopped? && A.Successful(outcome.result.reason)
  }

  const CANCELLED := Because("provider-cancelled")
  const FAILED := Because("prompt-failed")
  const NOT_COMPOSED := Because("compose-failed")
  const LOST := Because("provider-process-lost")

  /** A cancelled attempt is settled by whoever reads the cancellation first. */
  function Interrupted(s: System, pump: Pump): System {
    Stored(s, InterruptOp(CANCELLED), pump)
  }

  function Sending(s: System, owner: string, key: string, text: string): System {
    if !Usable(key, text) || ReplayOf(s.box, owner, key, text) == Some(Conflict) then s
    else if s.cancelled then if s.box.attempt.lifecycle.Open? then Interrupted(s, s.pump) else s
    else Stored(s, SendOp(owner, key, text), s.pump)
  }

  /** Claims the next message, or closes the mailbox after the empty scan, in one transaction. */
  function Claiming(s: System): System {
    if !s.box.attempt.lifecycle.Open? then s.(pump := Gone)
    else if s.cancelled then Interrupted(s, Gone)
    else
      var w := WaitingFrom(s.box.messages, 0);
      if Apply(s.box, ClaimOp).Some? && w < |s.box.messages| then
        Stored(s, ClaimOp, Holding(w, s.box.messages[w].status.body))
      else if s.box.attempt.active.Some? then s.(pump := Gone)
      else Stored(s, CloseOp(EmptyDrain, false), Gone)
  }

  /** A message for which no prompt can be composed is rejected alone. */
  function NotComposed(s: System): System
    requires s.pump.Holding?
  {
    var op := RejectOp(s.pump.i, NOT_COMPOSED);
    if Apply(s.box, op).Some? then Stored(s, op, Idle) else s.(pump := Gone)
  }

  /** The composed prompt is announced under a fresh id. */
  function Announcement(s: System, prompt: string): System
    requires s.pump.Holding?
  {
    var i, rpc := s.pump.i, s.lastRpc + 1;
    var op := AnnounceOp(i, rpc, prompt);
    if Apply(s.box, op).Some? then Stored(s, op, Ready(i, rpc, prompt)).(lastRpc := rpc) else s.(pump := Gone)
  }

  function Announced(s: System, prompt: string): System
    requires s.pump.Holding?
  {
    if prompt == "" then NotComposed(s) else if s.cancelled then Interrupted(s, Gone) else Announcement(s, prompt)
  }

  function Dispatched(s: System): System
    requires s.pump.Ready?
  {
    s.(pump := Waiting(s.pump.i, s.pump.rpc), sent := s.sent + [Prompt(s.pump.i + 1, s.pump.rpc, s.pump.text)])
  }

  function Received(s: System, batch: seq<A.Line>): System
    requires s.pump.Waiting?
  {
    var verdict := A.Verdict(batch, map[s.pump.rpc := A.Prompt], s.pump.rpc);
    if verdict.Some? then s.(pump := Answered(s.pump.i, s.pump.rpc, batch, verdict.value)) else s
  }

  /** A delivery that cannot be stored is as ambiguous as an answer that never came. */
  function Settling(s: System, persists: bool): System
    requires s.pump.Answered?
  {
    var i := s.pump.i;
    if Accepts(s.pump.outcome) && persists then
      if Deliver(s.box, i).Some? then
        Stored(s, DeliverOp(i), Idle).(proofs := s.proofs[i := s.pump.batch])
      else s.(pump := Gone)
    else if Lose(s.box, i, FAILED).Some? then Stored(s, LoseOp(i, FAILED), Finishing)
    else s.(pump := Gone)
  }

  /** A step on a store that recovery has mended. */
  function Do(s: System, step: Step): System {
    match step
    case OpenMailbox => if s.pump.Gone? then s else Stored(s, OpenOp, s.pump)
    case CompletePrimary(content) => if s.pump.Idle? then Stored(s, PrimaryOp(content), s.pump) else s
    case SendMessage(owner, key, text) => Sending(s, owner, key, text)
    case RequestCancel => s.(cancelled := true)
    case Next => if s.pump.Idle? && s.box.attempt.primary.Some? then Claiming(s) else s
    case Announcing(prompt) => if s.pump.Holding? then Announced(s, prompt) else s
    case Dispatch => if s.pump.Ready? then Dispatched(s) else s
    case Settle(persists) => if s.pump.Answered? then Settling(s, persists) else s
    case Finish => if s.pump.Finishing? then Stored(s, CloseOp(FAILED, false), Gone) else s
    case Receive(batch) => if s.pump.Waiting? then Received(s, batch) else s
    case Poison =>
      if s.pump.Ready? || s.pump.Waiting? || s.pump.Answered? then
        s.(pump := Answered(s.pump.i, s.pump.rpc, [], A.Rejected))
      else s
    case Crash => s.(pump := Gone)
    case RecoverLost => if s.pump.Gone? then Stored(s, InterruptOp(LOST), Gone) else s
    case Torn(_, _) => s
  }

  /** The operations that are under way where the actors stand. */
  predicate UnderWay(s: System, op: Op) {
    match op
    case SendOp(_, _, _) => !s.cancelled
    case ClaimOp => s.pump.Idle? && !s.cancelled
    case CloseOp(reason, recovery) =>
      ((s.pump.Idle? && s.box.attempt.primary.Some?) || s.pump.Finishing?) && !recovery
    case DeliverOp(i) => s.pump.Answered? && s.pump.i == i && Accepts(s.pump.outcome)
    case LoseOp(i, _) => s.pump.Answered? && s.pump.i == i
    case RejectOp(i, _) => s.pump.Holding? && s.pump.i == i
    case InterruptOp(_) => s.cancelled || s.pump.Gone?
    case _ => false
  }

  /** The process that ran `op` dies between two writes: a sender, or the pump. */
  ghost function TornAt(s: System, op: Op, left: Store): System {
    if UnderWay(s, op) && Leaves(s.box, op, left) then
      s.(box := left,
         pump := if op.SendOp? || op.InterruptOp? then s.pump else Gone,
         proofs := if op.DeliverOp? then s.proofs[op.i := s.pump.batch] else s.proofs)
    else s
  }

  ghost function Exec(s: System, step: Step): System {
    var seen := s.(box := Mended(s.box));
    if step.Torn? then TornAt(seen, step.op, step.left) else Do(seen, step)
  }

  ghost function Run(s: System, steps: seq<Step>): System
    decreases |steps|
  {
    if steps == [] then s else Run(Exec(s, steps[0]), steps[1..])
  }

  // ----- What every run keeps -----

  /** The record shows that message `m` was announced under `rpc` with this prompt. */
  predicate RecordedAs(m: Message, rpc: nat, text: string) {
    match m.status
    case Inflight(r, p) => r == rpc && p == text
    case Delivered(turn) => turn.Link? && turn.rpc == Some(rpc) && turn.prompt == text
    case DeliveryUnknown(turn, _) => turn.Link? && turn.rpc == Some(rpc) && turn.prompt == text
    case _ => false
  }

  /** Prompts went out in the order of the messages, each once, under rising ids, as recorded. */
  predicate InSequence(sent: seq<Prompt>, messages: seq<Message>, lastRpc: nat) {
    && (forall k :: 0 <= k < |sent| ==>
          && 1 <= sent[k].sequence <= |messages| && sent[k].rpc <= lastRpc
          && RecordedAs(messages[sent[k].sequence - 1], sent[k].rpc, sent[k].text))
    && (forall j, k :: 0 <= j < k < |sent| ==> sent[j].sequence < sent[k].sequence && sent[j].rpc < sent[k].rpc)
  }

  /** Every prompt so far belongs to a message before position `i`, under an id below `rpc`. */
  predicate AllBefore(sent: seq<Prompt>, i: nat, rpc: nat) {
    forall k :: 0 <= k < |sent| ==> sent[k].sequence <= i && sent[k].rpc < rpc
  }

  predicate Recorded(messages: seq<Message>, i: nat, rpc: nat) {
    && i < |messages|
    && (match messages[i].status
        case Inflight(r, _) => r == rpc
        case Delivered(turn) => turn.Link? && turn.rpc == Some(rpc)
        case DeliveryUnknown(turn, _) => turn.Link? && turn.rpc == Some(rpc)
        case _ => false)
  }

  predicate WentOut(sent: seq<Prompt>, i: nat, rpc: nat) {
    exists k :: 0 <= k < |sent| && sent[k].sequence == i + 1 && sent[k].rpc == rpc
  }

  /** What the pump remembers agrees with the record, unless somebody has cancelled. */
  predicate PumpAgrees(s: System) {
    var a, messages := s.box.attempt, s.box.messages;
    match s.pump
    case Idle => s.cancelled || Shutting(a) || a.active.None?
    case Holding(i, body) =>
      s.cancelled || Shutting(a) || (i < |messages| && messages[i].status == Claimed(body) && a.active == Some(i + 1))
    case Ready(i, rpc, text) =>
      i < |messages| && RecordedAs(messages[i], rpc, text) && rpc <= s.lastRpc && AllBefore(s.sent, i, rpc)
    case Waiting(i, rpc) => Recorded(messages, i, rpc) && WentOut(s.sent, i, rpc)
    case Answered(i, rpc, batch, outcome) =>
      && Recorded(messages, i, rpc)
      && (outcome.Resolved? ==> WentOut(s.sent, i, rpc) && A.Verdict(batch, map[rpc := A.Prompt], rpc) == Some(outcome))
    case _ => true
  }

  predicate Acknowledges(batch: seq<A.Line>, rpc: nat) {
    var verdict := A.Verdict(batch, map[rpc := A.Prompt], rpc);
    verdict.Some? && Accepts(verdict.value)
  }

  /** Every delivery went out and is backed by the batch that acknowledged exactly that prompt. */
  predicate Proven(messages: seq<Message>, proofs: map<nat, seq<A.Line>>, sent: seq<Prompt>) {
    forall i :: 0 <= i < |messages| && messages[i].status.Delivered? ==> ProvenAt(messages[i].status.turn, i, proofs, sent)
  }

  predicate ProvenAt(turn: Chain, i: nat, proofs: map<nat, seq<A.Line>>, sent: seq<Prompt>) {
    && turn.Link? && turn.rpc.Some? && WentOut(sent, i, turn.rpc.value)
    && i in proofs && Acknowledges(proofs[i], turn.rpc.value)
  }

  /** The wire and the pump agree with the record. */
  predicate Tied(s: System) {
    InSequence(s.sent, s.box.messages, s.lastRpc) && PumpAgrees(s) && Proven(s.box.messages, s.proofs, s.sent)
  }

  predicate Inv(s: System) {
    && Recover(s.box).Some?
    && Valid(Mended(s.box)) && Tied(s.(box := Mended(s.box)))
  }
}
