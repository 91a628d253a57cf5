/**
 The attempt-bound mailbox: ordered messages, each dispatched at most once at a turn boundary.  Its
 store is one aggregate record and one record per message.  Every operation is a function on the
 store; a digest names exactly one value, so the model stores the value where the store keeps a digest.
 */
module Mailbox {
  import opened Wrappers
  import opened Texts

  datatype Lifecycle = Preparing | Open | Closing | Closed

  datatype Reason = EmptyDrain | BlockedByPriorUnknown | MessageLimit | ByteLimit | ScrubbedOnClose | Because(cause: string)

  /**
   The communication chain.  The genesis binds worker, attempt, processes, session, capability, context
   and role; the turn with sequence 0 is the primary one.
   */
  datatype Chain =
    | Genesis(binding: nat)
    | Link(previous: Chain, sequence: nat, content: string, prompt: string, delivered: bool, rpc: Option<nat>)

  /** Only a message that was not handed to the transport keeps its body. */
  datatype Status =
    | Accepted(body: string)
    | Claimed(body: string)
    | Inflight(rpc: nat, prompt: string)
    | Delivered(turn: Chain)
    | DeliveryUnknown(turn: Chain, reason: Reason)
    | Refused(reason: Reason)

  datatype Message = Message(sequence: nat, owner: string, key: string, content: string, bytes: nat, status: Status)

  datatype Attempt = Attempt(
    binding: nat,
    lifecycle: Lifecycle,
    acceptedCount: nat,
    acceptedBytes: nat,
    chain: Chain,
    primary: Option<Chain>,
    last: Option<nat>,
    unknown: Option<nat>,
    active: Option<nat>,
    closeReason: Option<Reason>)

  /** A request that was not accepted keeps its key but takes no sequence number. */
  datatype TurnedAway = TurnedAway(owner: string, content: string, reason: Reason)

  datatype Store = Store(attempt: Attempt, messages: seq<Message>, turnedAway: map<string, TurnedAway>)

  const MAX_MESSAGES: nat := 32
  const MAX_BYTES: nat := 256 * 1024
  const MAX_LENGTH: nat := 16000

  // ----- Texts -----

  predicate Usable(key: string, text: string) {
    && 8 <= CodeUnits(key) <= 256
    && CodeUnits(text) <= MAX_LENGTH && exists i :: 0 <= i < |text| && !White(text[i])
  }

  // ----- Messages in order -----

  predicate Done(status: Status) {
    status.Delivered? || status.DeliveryUnknown? || status.Refused?
  }

  predicate Active(status: Status) {
    status.Claimed? || status.Inflight?
  }

  function TurnFrom(messages: seq<Message>, i: nat): (t: nat)
    requires i <= |messages|
    ensures i <= t <= |messages|
    ensures forall k :: i <= k < t ==> Done(messages[k].status)
    ensures t < |messages| ==> !Done(messages[t].status)
    decreases |messages| - i
  {
    if i < |messages| && Done(messages[i].status) then TurnFrom(messages, i + 1) else i
  }

  /** The first message without an outcome: the one whose turn it is. */
  function Turnstile(messages: seq<Message>): (t: nat)
    ensures t <= |messages|
    ensures forall k :: 0 <= k < t ==> Done(messages[k].status)
    ensures t < |messages| ==> !Done(messages[t].status)
  {
    TurnFrom(messages, 0)
  }

  lemma TurnstileIs(messages: seq<Message>, t: nat)
    requires t <= |messages|
    requires forall i :: 0 <= i < t ==> Done(messages[i].status)
    requires t < |messages| ==> !Done(messages[t].status)
    ensures Turnstile(messages) == t
  {
  }

  function ActiveOf(messages: seq<Message>): Option<nat> {
    var t := Turnstile(messages);
    if t < |messages| && Active(messages[t].status) then Some(t + 1) else None
  }

  function TurnOf(status: Status): Option<Chain> {
    match status
    case Delivered(turn) => Some(turn)
    case DeliveryUnknown(turn, _) => Some(turn)
    case _ => None
  }

  /** The chain after the first `k` messages, starting from the primary turn. */
  function ChainTo(start: Chain, messages: seq<Message>, k: nat): Chain
    requires k <= |messages|
  {
    if k == 0 then start
    else
      var turn := TurnOf(messages[k - 1].status);
      if turn.Some? then turn.value else ChainTo(start, messages, k - 1)
  }

  /** The last of the first `k` messages that completed a turn; 0 is the primary turn. */
  function LastTo(messages: seq<Message>, k: nat): (last: nat)
    requires k <= |messages|
    ensures last <= k
  {
    if k == 0 then 0 else if TurnOf(messages[k - 1].status).Some? then k else LastTo(messages, k - 1)
  }

  function UnknownTo(messages: seq<Message>, k: nat): (u: Option<nat>)
    requires k <= |messages|
    ensures u.Some? ==> 0 < u.value <= k && messages[u.value - 1].status.DeliveryUnknown?
    ensures u.None? ==> forall i :: 0 <= i < k ==> !messages[i].status.DeliveryUnknown?
  {
    if k == 0 then None
    else
      var u := UnknownTo(messages, k - 1);
      if u.Some? then u else if messages[k - 1].status.DeliveryUnknown? then Some(k) else None
  }

  function BytesTo(messages: seq<Message>, k: nat): nat
    requires k <= |messages|
  {
    if k == 0 then 0 else BytesTo(messages, k - 1) + messages[k - 1].bytes
  }

  function TotalBytes(messages: seq<Message>): nat {
    BytesTo(messages, |messages|)
  }

  /** The position of the message among the first `k` that used `key`, if any. */
  function LookupTo(messages: seq<Message>, k: nat, key: string): (at: Option<nat>)
    requires k <= |messages|
    ensures at.Some? ==> at.value < k && messages[at.value].key == key
    ensures at.None? ==> forall i :: 0 <= i < k ==> messages[i].key != key
  {
    if k == 0 then None
    else
      var at := LookupTo(messages, k - 1, key);
      if at.Some? then at else if messages[k - 1].key == key then Some(k - 1) else None
  }

  // ----- Operations -----

  function Prepared(binding: nat): Store {
    Store(Attempt(binding, Preparing, 0, 0, Genesis(binding), None, None, None, None, None), [], map[])
  }

  function Opened(s: Store): Option<Store> {
    match s.attempt.lifecycle
    case Preparing => Some(s.(attempt := s.attempt.(lifecycle := Open)))
    case Open => Some(s)
    case _ => None
  }

  /** The primary turn, completed while the mailbox already accepts messages, starts the chain. */
  function RecordPrimary(s: Store, content: string): Option<Store> {
    var a := s.attempt;
    if a.lifecycle.Open? && a.primary.None? && a.last.None? && a.active.None? then
      var turn := Link(a.chain, 0, content, content, true, None);
      Some(s.(attempt := a.(chain := turn, primary := Some(turn), last := Some(0))))
    else None
  }

  datatype SendResult =
    | Receipt(sequence: nat)
    | Replay(sequence: nat)
    | Declined(reason: Reason)
    | Conflict
    | Unavailable
    | Malformed

  /** What an earlier request with this key gets again, if its owner and text are the same. */
  function ReplayOf(s: Store, owner: string, key: string, text: string): Option<SendResult> {
    var at := LookupTo(s.messages, |s.messages|, key);
    if at.Some? then
      var m := s.messages[at.value];
      Some(if m.owner == owner && m.content == text then Replay(m.sequence) else Conflict)
    else if key in s.turnedAway then
      var t := s.turnedAway[key];
      Some(if t.owner == owner && t.content == text then Replay(0) else Conflict)
    else None
  }

  function SendOutcome(s: Store, owner: string, key: string, text: string): SendResult {
    var replay := ReplayOf(s, owner, key, text);
    if !Usable(key, text) then Malformed
    else if replay.Some? then replay.value
    else if !s.attempt.lifecycle.Open? then Unavailable
    else if s.attempt.unknown.Some? then Declined(BlockedByPriorUnknown)
    else if s.attempt.acceptedCount + 1 > MAX_MESSAGES then Declined(MessageLimit)
    else if s.attempt.acceptedBytes + Utf8Bytes(text) > MAX_BYTES then Declined(ByteLimit)
    else Receipt(s.attempt.acceptedCount + 1)
  }

  function NewMessage(s: Store, owner: string, key: string, text: string): Message {
    Message(s.attempt.acceptedCount + 1, owner, key, text, Utf8Bytes(text), Accepted(text))
  }

  function Sent(s: Store, owner: string, key: string, text: string): Store {
    match SendOutcome(s, owner, key, text)
    case Receipt(_) =>
      s.(messages := s.messages + [NewMessage(s, owner, key, text)],
         attempt := s.attempt.(acceptedCount := s.attempt.acceptedCount + 1,
                               acceptedBytes := s.attempt.acceptedBytes + Utf8Bytes(text)))
    case Declined(reason) => s.(turnedAway := s.turnedAway[key := TurnedAway(owner, text, reason)])
    case _ => s
  }

  /** The first message from position `i` on that waits to be claimed. */
  function WaitingFrom(messages: seq<Message>, i: nat): (w: nat)
    requires i <= |messages|
    ensures i <= w <= |messages|
    ensures forall k :: i <= k < w ==> !messages[k].status.Accepted?
    ensures w < |messages| ==> messages[w].status.Accepted?
    decreases |messages| - i
  {
    if i < |messages| && !messages[i].status.Accepted? then WaitingFrom(messages, i + 1) else i
  }

  function WithStatus(s: Store, i: nat, status: Status): Store
    requires i < |s.messages|
  {
    s.(messages := s.messages[i := s.messages[i].(status := status)])
  }

  function Claim(s: Store): Option<Store> {
    var w := WaitingFrom(s.messages, 0);
    if s.attempt.lifecycle.Open? && s.attempt.unknown.None? && s.attempt.active.None? && w < |s.messages| then
      Some(WithStatus(s, w, Claimed(s.messages[w].status.body)).(attempt := s.attempt.(active := Some(w + 1))))
    else None
  }

  /** The body leaves the record before the first byte goes out under `rpc`. */
  function Announce(s: Store, i: nat, rpc: nat, prompt: string): Option<Store> {
    if && s.attempt.lifecycle.Open? && i < |s.messages| && s.messages[i].status.Claimed?
       && s.attempt.active == Some(i + 1)
    then Some(WithStatus(s, i, Inflight(rpc, prompt)))
    else None
  }

  /** The link that the turn of an inflight message adds to the chain. */
  function TurnOfInflight(s: Store, i: nat, delivered: bool): Chain
    requires i < |s.messages| && s.messages[i].status.Inflight?
  {
    Link(s.attempt.chain, i + 1, s.messages[i].content, s.messages[i].status.prompt, delivered, Some(s.messages[i].status.rpc))
  }

  predicate CanSettle(s: Store, i: nat) {
    && i < |s.messages| && s.messages[i].status.Inflight?
    && s.attempt.active == Some(i + 1) && s.attempt.primary.Some?
  }

  function Deliver(s: Store, i: nat): Option<Store> {
    if CanSettle(s, i) then
      var turn := TurnOfInflight(s, i, true);
      Some(WithStatus(s, i, Status.Delivered(turn)).(
        attempt := s.attempt.(chain := turn, last := Some(i + 1), active := None)))
    else None
  }

  /** What an ambiguous turn leaves of another message: nothing waits any more. */
  function Blocked(message: Message): Message {
    if message.status.Accepted? || message.status.Claimed? then message.(status := Refused(BlockedByPriorUnknown))
    else message
  }

  /** Position `i` gets `status`; every other waiting message from `i` to `k` is blocked. */
  function BlockedTo(messages: seq<Message>, i: nat, status: Status, k: nat): seq<Message>
    requires i < |messages|
  {
    seq(|messages|, j requires 0 <= j < |messages| =>
      if j == i then messages[j].(status := status) else if j < k then Blocked(messages[j]) else messages[j])
  }

  /** An ambiguous turn is never retried: it ends the pump and every waiting message. */
  function Lose(s: Store, i: nat, reason: Reason): Option<Store> {
    if CanSettle(s, i) then
      var turn := TurnOfInflight(s, i, false);
      Some(s.(
        messages := BlockedTo(s.messages, i, DeliveryUnknown(turn, reason), |s.messages|),
        attempt := s.attempt.(
          lifecycle := if s.attempt.lifecycle.Closed? then Closed else Closing,
          chain := turn, last := Some(i + 1), unknown := Some(i + 1), active := None, closeReason := Some(reason))))
    else None
  }

  /** One message is turned down without having reached the transport; the pump may go on. */
  function Reject(s: Store, i: nat, reason: Reason): Option<Store> {
    if i < |s.messages| && (s.messages[i].status.Accepted? || s.messages[i].status.Claimed?) then
      Some(WithStatus(s, i, Refused(reason)).(
        attempt := s.attempt.(active := if s.attempt.active == Some(i + 1) then None else s.attempt.active)))
    else None
  }

  predicate Unfinished(messages: seq<Message>) {
    exists i :: 0 <= i < |messages| && !Done(messages[i].status)
  }

  /** The final empty scan and the close are one transaction. */
  function TryClose(s: Store, reason: Reason, recovery: bool): Option<Store> {
    if s.attempt.lifecycle.Closed? then Some(s)
    else if s.attempt.lifecycle.Preparing? && !recovery then None
    else if Unfinished(s.messages) then None
    else
      Some(s.(attempt := s.attempt.(
        lifecycle := Closed,
        closeReason := Some(if s.attempt.closeReason.Some? then s.attempt.closeReason.value else reason))))
  }

  /** Every message from `from` to `k` that still waits is refused. */
  function RefusedTo(messages: seq<Message>, k: nat, reason: Reason): seq<Message> {
    seq(|messages|, j requires 0 <= j < |messages| =>
      if j < k && (messages[j].status.Accepted? || messages[j].status.Claimed?)
      then messages[j].(status := Refused(reason)) else messages[j])
  }

  /** The store in which the first `k` messages that waited have been turned down one by one. */
  function RejectedTo(s: Store, k: nat, reason: Reason): Store {
    s.(messages := RefusedTo(s.messages, k, reason),
       attempt := s.attempt.(active :=
         if s.attempt.active.Some? && s.attempt.active.value <= k then None else s.attempt.active))
  }

  function FirstInflight(messages: seq<Message>, i: nat): (f: nat)
    requires i <= |messages|
    ensures i <= f <= |messages|
    ensures forall k :: i <= k < f ==> !messages[k].status.Inflight?
    ensures f < |messages| ==> messages[f].status.Inflight?
    decreases |messages| - i
  {
    if i < |messages| && !messages[i].status.Inflight? then FirstInflight(messages, i + 1) else i
  }

  /**
   Settlement after cancellation or loss of the provider: an inflight message may have crossed the
   provider boundary and becomes unknown; waiting ones provably did not and are refused.
   */
  function Interrupt(s: Store, reason: Reason): Option<Store> {
    var f := FirstInflight(s.messages, 0);
    if s.attempt.lifecycle.Closed? then Some(s)
    else if f < |s.messages| then
      var lost := Lose(s, f, reason);
      if lost.Some? then TryClose(lost.value, reason, true) else None
    else TryClose(RejectedTo(s, |s.messages|, reason), reason, true)
  }
}
