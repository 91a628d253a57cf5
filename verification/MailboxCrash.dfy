/**
 Crashes between the writes of one mailbox operation.  Message records are written before the aggregate
 record, so recovery can finish every interrupted operation from the messages alone.
 */
module MailboxCrash {
  import opened Wrappers
  import opened Mailbox
  import opened MailboxOrder

  // ----- Recovery -----

  predicate OneActive(messages: seq<Message>) {
    forall i, j :: 0 <= i < j < |messages| ==> !(Active(messages[i].status) && Active(messages[j].status))
  }

  /** At most one unknown delivery, and no completed turn behind it. */
  predicate UnknownEndsTurns(messages: seq<Message>) {
    forall i, j :: 0 <= i < j < |messages| && messages[i].status.DeliveryUnknown? ==> TurnOf(messages[j].status).None?
  }

  predicate Contiguous(messages: seq<Message>) {
    && |messages| <= MAX_MESSAGES && TotalBytes(messages) <= MAX_BYTES
    && forall i :: 0 <= i < |messages| ==> messages[i].sequence == i + 1 && messages[i].bytes >= 1
  }

  /** The aggregate counters may lag behind the messages, but never lead or disagree. */
  predicate CountsLag(a: Attempt, messages: seq<Message>) {
    && a.acceptedCount <= |messages| && a.acceptedBytes == BytesTo(messages, a.acceptedCount)
    && (a.active.Some? ==> 1 <= a.active.value <= |messages|)
  }

  /** The aggregate chain is a prefix of the turns that the messages hold. */
  predicate ChainLags(a: Attempt, messages: seq<Message>) {
    match a.primary
    case None => a.last.None? && forall i :: 0 <= i < |messages| ==> TurnOf(messages[i].status).None?
    case Some(primary) =>
      && IsPrimary(primary, a.binding) && Turns(primary, messages)
      && a.last.Some? && a.last.value <= |messages|
      && (if a.last.value == 0 then a.chain == primary else TurnOf(messages[a.last.value - 1].status) == Some(a.chain))
  }

  /** Whether recovery accepts the store at all. */
  predicate Mendable(s: Store) {
    && Contiguous(s.messages) && CountsLag(s.attempt, s.messages)
    && OneActive(s.messages) && UnknownEndsTurns(s.messages) && ChainLags(s.attempt, s.messages)
  }

  function FirstActive(messages: seq<Message>, i: nat): (f: nat)
    requires i <= |messages|
    ensures i <= f <= |messages|
    ensures forall k :: i <= k < f ==> !Active(messages[k].status)
    ensures f < |messages| ==> Active(messages[f].status)
    decreases |messages| - i
  {
    if i < |messages| && !Active(messages[i].status) then FirstActive(messages, i + 1) else i
  }

  function Scrubbed(messages: seq<Message>): seq<Message> {
    seq(|messages|, j requires 0 <= j < |messages| =>
      if messages[j].status.Accepted? || messages[j].status.Claimed?
      then messages[j].(status := Refused(ScrubbedOnClose)) else messages[j])
  }

  /** The messages behind position `u` that still wait are blocked. */
  function BlockedBehind(messages: seq<Message>, u: nat): seq<Message> {
    seq(|messages|, j requires 0 <= j < |messages| => if j > u then Blocked(messages[j]) else messages[j])
  }

  function WithChain(a: Attempt, messages: seq<Message>): Attempt {
    if a.primary.Some? then
      a.(chain := ChainTo(a.primary.value, messages, |messages|), last := Some(LastTo(messages, |messages|)))
    else a
  }

  /** The close that an unknown delivery at position `u` demands. */
  function WithUnknown(a: Attempt, messages: seq<Message>, u: nat): Attempt
    requires u < |messages| && messages[u].status.DeliveryUnknown?
  {
    a.(lifecycle := if a.lifecycle.Closed? then Closed else Closing,
       unknown := Some(u + 1), active := None,
       closeReason := Some(if a.closeReason.Some? then a.closeReason.value else messages[u].status.reason))
  }

  function WithCounts(a: Attempt, messages: seq<Message>): Attempt {
    a.(acceptedCount := |messages|, acceptedBytes := TotalBytes(messages))
  }

  function Repaired(s: Store): Store {
    var n := |s.messages|;
    var u := UnknownTo(s.messages, n);
    var chained := WithChain(WithCounts(s.attempt, s.messages), s.messages);
    if u.Some? then
      var a := WithUnknown(chained, s.messages, u.value - 1);
      var blocked := BlockedBehind(s.messages, u.value - 1);
      s.(attempt := a, messages := if a.lifecycle.Closed? then Scrubbed(blocked) else blocked)
    else
      var f := FirstActive(s.messages, 0);
      s.(attempt := chained.(active := if f < n then Some(f + 1) else None),
         messages := if chained.lifecycle.Closed? then Scrubbed(s.messages) else s.messages)
  }

  /** Finishes an interrupted operation, or refuses a store that no interruption leaves behind. */
  function Recover(s: Store): Option<Store> {
    if Mendable(s) then Some(Repaired(s)) else None
  }

  // ----- A lagging aggregate is repaired -----

  lemma {:induction false} TurnAtLast(start: Chain, messages: seq<Message>, k: nat)
    requires k <= |messages|
    ensures var last := LastTo(messages, k);
      if last == 0 then ChainTo(start, messages, k) == start
      else TurnOf(messages[last - 1].status) == Some(ChainTo(start, messages, k))
  {
    if k > 0 && TurnOf(messages[k - 1].status).None? {
      TurnAtLast(start, messages, k - 1);
    }
  }

  lemma OrderedIsMendable(messages: seq<Message>)
    requires Ordered(messages)
    ensures OneActive(messages) && UnknownEndsTurns(messages)
    ensures forall i :: 0 <= i < |messages| ==> messages[i].sequence == i + 1 && messages[i].bytes >= 1
  {
  }

  lemma FirstActiveIsActive(messages: seq<Message>)
    requires Queued(messages)
    ensures ActiveOf(messages) ==
      var f := FirstActive(messages, 0); if f < |messages| then Some(f + 1) else None
  {
    var f := FirstActive(messages, 0);
    assert f < |messages| ==> !Done(messages[f].status);
  }

  lemma NothingToBlock(messages: seq<Message>, u: nat)
    requires UnknownLast(messages) && u < |messages| && messages[u].status.DeliveryUnknown?
    ensures BlockedBehind(messages, u) == messages
  {
  }

  lemma NothingToScrub(messages: seq<Message>)
    requires forall i :: 0 <= i < |messages| ==> Done(messages[i].status)
    ensures Scrubbed(messages) == messages
  {
  }

  /** `a` is an aggregate that an operation has not yet replaced by the one of the complete store `s`. */
  predicate Lags(a: Attempt, s: Store)
    requires Pointed(s.attempt, s.messages)
  {
    && a.binding == s.attempt.binding && a.primary == s.attempt.primary
    && CountsLag(a, s.messages) && ChainLags(a, s.messages)
    && (a.primary.None? ==> a.chain == s.attempt.chain)
    && (if s.attempt.unknown.Some? then
          && (a.lifecycle == s.attempt.lifecycle || (!a.lifecycle.Closed? && s.attempt.lifecycle.Closing?))
          && s.attempt.closeReason == Some(
               if a.closeReason.Some? then a.closeReason.value else s.messages[s.attempt.unknown.value - 1].status.reason)
        else
          a.lifecycle == s.attempt.lifecycle && a.unknown.None? && a.closeReason == s.attempt.closeReason)
  }

  lemma LaggingIsMendable(s: Store, a: Attempt)
    requires Ordered(s.messages) && Counted(s.attempt, s.messages) && Pointed(s.attempt, s.messages) && Lags(a, s)
    ensures Mendable(s.(attempt := a))
  {
    OrderedIsMendable(s.messages);
  }

  lemma LaggingCatchesUp(s: Store, a: Attempt)
    requires Counted(s.attempt, s.messages) && Chained(s.attempt, s.messages) && Pointed(s.attempt, s.messages)
    requires Lags(a, s)
    ensures WithChain(WithCounts(a, s.messages), s.messages) == s.attempt.(
      lifecycle := a.lifecycle, unknown := a.unknown, active := a.active, closeReason := a.closeReason)
  {
  }

  /** The messages alone tell what the aggregate must become. */
  lemma LaggingIsRepaired(s: Store, a: Attempt)
    requires Valid(s) && Lags(a, s)
    ensures Recover(s.(attempt := a)) == Some(s)
  {
    LaggingIsMendable(s, a);
    LaggingCatchesUp(s, a);
    FirstActiveIsActive(s.messages);
    if Shutting(s.attempt) {
      NothingToScrub(s.messages);
    }
    if s.attempt.unknown.Some? {
      NothingToBlock(s.messages, s.attempt.unknown.value - 1);
    }
  }

  lemma ValidChainLags(a: Attempt, messages: seq<Message>)
    requires Chained(a, messages)
    ensures ChainLags(a, messages)
  {
    if a.primary.Some? {
      TurnAtLast(a.primary.value, messages, |messages|);
    }
  }

  /** Recovery changes nothing in a complete store. */
  lemma RecoverIsIdle(s: Store)
    requires Valid(s)
    ensures Recover(s) == Some(s)
  {
    ValidChainLags(s.attempt, s.messages);
    LaggingIsRepaired(s, s.attempt);
  }

  // ----- Crashes between two writes -----

  /** The old aggregate still is a prefix when the list only gained turns behind its last one. */
  lemma OldChainLags(a: Attempt, messages: seq<Message>, a': Attempt, messages': seq<Message>)
    requires Chained(a, messages) && Chained(a', messages') && |messages| <= |messages'|
    requires a'.binding == a.binding && a'.primary == a.primary
    requires forall i :: 0 <= i < |messages| && TurnOf(messages[i].status).Some? ==>
      TurnOf(messages'[i].status) == TurnOf(messages[i].status)
    ensures ChainLags(a, messages')
  {
    if a.primary.Some? {
      TurnAtLast(a.primary.value, messages, |messages|);
    }
  }

  lemma OldCountsLag(a: Attempt, messages: seq<Message>, messages': seq<Message>)
    requires Counted(a, messages) && a.active == ActiveOf(messages) && |messages| <= |messages'|
    requires forall i :: 0 <= i < |messages| ==> messages'[i].bytes == messages[i].bytes
    ensures CountsLag(a, messages')
  {
    SameBytes(messages, messages', |messages|);
  }

  /** An operation that writes one message and then the aggregate. */
  predicate TwoWrites(s: Store, s': Store) {
    && |s.messages| <= |s'.messages| && s'.turnedAway == s.turnedAway
    && (forall i :: 0 <= i < |s.messages| ==> s'.messages[i] == s.messages[i].(status := s'.messages[i].status))
    && (forall i :: 0 <= i < |s.messages| && TurnOf(s.messages[i].status).Some? ==>
          TurnOf(s'.messages[i].status) == TurnOf(s.messages[i].status))
    && s'.attempt.binding == s.attempt.binding && s'.attempt.primary == s.attempt.primary
    && s'.attempt.lifecycle == s.attempt.lifecycle && s'.attempt.closeReason == s.attempt.closeReason
    && s'.attempt.unknown == s.attempt.unknown
  }

  /** Whatever such an operation is, a crash between its two writes is recovered to its full effect. */
  lemma MessageFirst(s: Store, s': Store)
    requires Valid(s) && Valid(s') && TwoWrites(s, s') && s.attempt.unknown.None?
    ensures Recover(s.(messages := s'.messages)) == Some(s')
  {
    OldChainLags(s.attempt, s.messages, s'.attempt, s'.messages);
    OldCountsLag(s.attempt, s.messages, s'.messages);
    LaggingIsRepaired(s', s.attempt);
    assert s.(messages := s'.messages) == s'.(attempt := s.attempt);
  }

  /** Every operation on the store. */
  datatype Op =
    | OpenOp
    | PrimaryOp(content: string)
    | SendOp(owner: string, key: string, text: string)
    | ClaimOp
    | AnnounceOp(i: nat, rpc: nat, prompt: string)
    | DeliverOp(i: nat)
    | LoseOp(i: nat, reason: Reason)
    | RejectOp(i: nat, reason: Reason)
    | CloseOp(reason: Reason, recovery: bool)
    | InterruptOp(reason: Reason)

  function Apply(s: Store, op: Op): Option<Store> {
    match op
    case OpenOp => Opened(s)
    case PrimaryOp(content) => RecordPrimary(s, content)
    case SendOp(owner, key, text) => Some(Sent(s, owner, key, text))
    case ClaimOp => if s.attempt.primary.Some? then Claim(s) else None
    case AnnounceOp(i, rpc, prompt) => Announce(s, i, rpc, prompt)
    case DeliverOp(i) => Deliver(s, i)
    case LoseOp(i, reason) => Lose(s, i, reason)
    case RejectOp(i, reason) => if s.attempt.active == Some(i + 1) then Reject(s, i, reason) else None
    case CloseOp(reason, recovery) => TryClose(s, reason, recovery)
    case InterruptOp(reason) => Interrupt(s, reason)
  }

  lemma ApplyKeepsValid(s: Store, op: Op)
    requires Valid(s) && Apply(s, op).Some?
    ensures Valid(Apply(s, op).value)
  {
    match op
    case OpenOp => OpenedKeepsValid(s);
    case PrimaryOp(content) => PrimaryKeepsValid(s, content);
    case SendOp(owner, key, text) => SentKeepsValid(s, owner, key, text);
    case ClaimOp => ClaimKeepsValid(s);
    case AnnounceOp(i, rpc, prompt) => AnnounceKeepsValid(s, i, rpc, prompt);
    case DeliverOp(i) => DeliverKeepsValid(s, i);
    case LoseOp(i, reason) => LoseKeepsValid(s, i, reason);
    case RejectOp(i, reason) =>
      ActiveIsTurn(s.messages, i);
      RejectKeepsValid(s, i, reason);
    case CloseOp(reason, recovery) => TryCloseKeepsValid(s, reason, recovery);
    case InterruptOp(reason) => InterruptKeepsValid(s, reason);
  }

  function ClosingStore(s: Store, reason: Reason): Store {
    s.(attempt := s.attempt.(
      lifecycle := Closing,
      closeReason := Some(if s.attempt.closeReason.Some? then s.attempt.closeReason.value else reason)))
  }

  /** After some of the writes of losing message `i`: it is unknown, and the messages before `k` are blocked. */
  function LosingStore(s: Store, i: nat, reason: Reason, k: nat): Store
    requires i < |s.messages| && s.messages[i].status.Inflight?
  {
    s.(messages := BlockedTo(s.messages, i, DeliveryUnknown(TurnOfInflight(s, i, false), reason), k))
  }

  /** `p` is what a crash between two writes of `op` leaves of the store `s`. */
  ghost predicate Leaves(s: Store, op: Op, p: Store) {
    match op
    case SendOp(owner, key, text) =>
      SendOutcome(s, owner, key, text).Receipt? && p == s.(messages := Sent(s, owner, key, text).messages)
    case ClaimOp => Apply(s, op).Some? && p == s.(messages := Claim(s).value.messages)
    case DeliverOp(i) => Deliver(s, i).Some? && p == s.(messages := Deliver(s, i).value.messages)
    case RejectOp(i, reason) => Apply(s, op).Some? && p == s.(messages := Reject(s, i, reason).value.messages)
    case LoseOp(i, reason) => CanSettle(s, i) && exists k :: p == LosingStore(s, i, reason, k)
    case CloseOp(reason, recovery) => TryClose(s, reason, recovery).Some? && !s.attempt.lifecycle.Closed? && p == ClosingStore(s, reason)
    case InterruptOp(reason) =>
      var f := FirstInflight(s.messages, 0);
      && !s.attempt.lifecycle.Closed?
      && (if f < |s.messages| then
            CanSettle(s, f) && ((exists k :: p == LosingStore(s, f, reason, k)) || Lose(s, f, reason) == Some(p))
          else
            exists k: nat :: k <= |s.messages|
              && (p == RejectedTo(s, k, reason) || p == RejectedTo(s, k, reason).(attempt := s.attempt)
                  || (k == |s.messages| && p == ClosingStore(RejectedTo(s, k, reason), reason))))
    case _ => false
  }

  /** What recovery makes of that: the full effect, or a step of an interruption on its way to it. */
  ghost predicate Finishes(s: Store, op: Op, r: Store) {
    match op
    case CloseOp(reason, _) => r == ClosingStore(s, reason)
    case InterruptOp(reason) =>
      var f := FirstInflight(s.messages, 0);
      if f < |s.messages| then Lose(s, f, reason) == Some(r)
      else exists k: nat :: k <= |s.messages| && (r == RejectedTo(s, k, reason) || r == ClosingStore(RejectedTo(s, k, reason), reason))
    case _ => Apply(s, op) == Some(r)
  }

  lemma LosingContent(messages: seq<Message>, i: nat, status: Status, k: nat)
    requires Queued(messages) && i == Turnstile(messages) < |messages| && status.DeliveryUnknown?
    ensures var part, whole := BlockedTo(messages, i, status, k), BlockedTo(messages, i, status, |messages|);
      SameContent(whole, part) && SameTurns(whole, part, |messages|) && SameContent(messages, part)
  {
  }

  lemma LosingBlocks(messages: seq<Message>, i: nat, status: Status, k: nat)
    requires Queued(messages) && i == Turnstile(messages) < |messages| && status.DeliveryUnknown?
    ensures BlockedBehind(BlockedTo(messages, i, status, k), i) == BlockedTo(messages, i, status, |messages|)
  {
    var part, whole := BlockedTo(messages, i, status, k), BlockedTo(messages, i, status, |messages|);
    forall j | 0 <= j < |messages|
      ensures BlockedBehind(part, i)[j] == whole[j]
    {
      if j < i {
        assert Done(messages[j].status);
      }
    }
  }

  lemma PartlyBlocked(messages: seq<Message>, i: nat, status: Status, k: nat, j: nat)
    requires Queued(messages) && i == Turnstile(messages) < |messages| && status.DeliveryUnknown? && j < |messages|
    requires !messages[j].status.DeliveryUnknown?
    ensures var part := BlockedTo(messages, i, status, k);
      && !Active(part[j].status) && (j > i ==> TurnOf(part[j].status).None?)
      && (j != i ==> !part[j].status.DeliveryUnknown?)
  {
    if j < i {
      assert Done(messages[j].status);
    }
  }

  lemma LosingIsMendable(messages: seq<Message>, i: nat, status: Status, k: nat)
    requires Queued(messages) && i == Turnstile(messages) < |messages| && status.DeliveryUnknown?
    requires forall j :: 0 <= j < |messages| ==> !messages[j].status.DeliveryUnknown?
    ensures var part := BlockedTo(messages, i, status, k);
      OneActive(part) && UnknownEndsTurns(part) && UnknownTo(part, |messages|) == Some(i + 1)
  {
    var part := BlockedTo(messages, i, status, k);
    forall j | 0 <= j < |messages|
      ensures !Active(part[j].status) && (j > i ==> TurnOf(part[j].status).None?)
      ensures j != i ==> !part[j].status.DeliveryUnknown?
    {
      PartlyBlocked(messages, i, status, k, j);
    }
    UnknownToIs(part, |messages|, i);
  }

  lemma ChainLagsAlike(a: Attempt, messages: seq<Message>, messages': seq<Message>)
    requires ChainLags(a, messages) && SameContent(messages, messages') && SameTurns(messages, messages', |messages|)
    requires forall i :: 0 <= i < |messages| && TurnOf(messages[i].status).Some? ==> messages'[i].status == messages[i].status
    ensures ChainLags(a, messages')
  {
    if a.primary.Some? {
      forall i | 0 <= i < |messages|
        ensures ExtendsChain(a.primary.value, messages', i)
      {
        assert ExtendsChain(a.primary.value, messages, i);
        SameTurnsKeepLinks(a.primary.value, messages, messages', i);
      }
    }
  }

  /** The same aggregate over lists that differ only in messages without a turn. */
  lemma CatchUpAlike(a: Attempt, messages: seq<Message>, messages': seq<Message>)
    requires SameContent(messages, messages') && SameTurns(messages, messages', |messages|)
    ensures WithChain(WithCounts(a, messages), messages) == WithChain(WithCounts(a, messages'), messages')
  {
    SameBytes(messages, messages', |messages|);
    if a.primary.Some? {
      SameTurnsSameChain(a.primary.value, messages, messages', |messages|);
    }
  }

  lemma LosingKeepsTurns(s: Store, i: nat, reason: Reason)
    requires Queued(s.messages) && i == Turnstile(s.messages) && CanSettle(s, i)
    ensures var messages' := Lose(s, i, reason).value.messages;
      && |messages'| == |s.messages| && messages'[i].status.DeliveryUnknown? && messages'[i].status.reason == reason
      && (forall j :: 0 <= j < |s.messages| ==> messages'[j].bytes == s.messages[j].bytes)
      && (forall j :: 0 <= j < |s.messages| && TurnOf(s.messages[j].status).Some? ==>
            TurnOf(messages'[j].status) == TurnOf(s.messages[j].status))
  {
  }

  lemma LosingLags(s: Store, i: nat, reason: Reason)
    requires Valid(s) && CanSettle(s, i) && i == Turnstile(s.messages)
    requires Valid(Lose(s, i, reason).value)
    ensures Lags(s.attempt, Lose(s, i, reason).value)
  {
    var s' := Lose(s, i, reason).value;
    LosingKeepsTurns(s, i, reason);
    OldChainLags(s.attempt, s.messages, s'.attempt, s'.messages);
    OldCountsLag(s.attempt, s.messages, s'.messages);
  }

  /** `p` differs from the complete store `s'` only in the aggregate and in messages that are to be blocked. */
  predicate OnlyToBlock(s': Store, p: Store, i: nat) {
    && p.turnedAway == s'.turnedAway && i < |s'.messages|
    && SameContent(s'.messages, p.messages) && SameTurns(s'.messages, p.messages, |s'.messages|)
    && BlockedBehind(p.messages, i) == s'.messages == BlockedBehind(s'.messages, i)
    && UnknownTo(s'.messages, |s'.messages|) == Some(i + 1) == UnknownTo(p.messages, |p.messages|)
    && p.messages[i] == s'.messages[i]
  }

  lemma MendableAlike(s': Store, p: Store)
    requires Mendable(s'.(attempt := p.attempt)) && SameContent(s'.messages, p.messages)
    requires SameTurns(s'.messages, p.messages, |s'.messages|)
    requires forall j :: 0 <= j < |s'.messages| && TurnOf(s'.messages[j].status).Some? ==> p.messages[j].status == s'.messages[j].status
    requires OneActive(p.messages) && UnknownEndsTurns(p.messages)
    ensures Mendable(p)
  {
    ChainLagsAlike(p.attempt, s'.messages, p.messages);
    SameBytes(s'.messages, p.messages, |s'.messages|);
    SameBytes(s'.messages, p.messages, p.attempt.acceptedCount);
  }

  lemma RepairedAlike(s': Store, p: Store, i: nat)
    requires OnlyToBlock(s', p, i)
    ensures Repaired(p) == Repaired(s'.(attempt := p.attempt))
  {
    CatchUpAlike(p.attempt, s'.messages, p.messages);
  }

  /** Recovery tells apart only the messages that it will block anyway. */
  lemma LosingRepairs(s': Store, p: Store, i: nat)
    requires OnlyToBlock(s', p, i) && Recover(s'.(attempt := p.attempt)) == Some(s')
    requires forall j :: 0 <= j < |s'.messages| && TurnOf(s'.messages[j].status).Some? ==> p.messages[j].status == s'.messages[j].status
    requires OneActive(p.messages) && UnknownEndsTurns(p.messages)
    ensures Recover(p) == Some(s')
  {
    MendableAlike(s', p);
    RepairedAlike(s', p, i);
  }

  lemma LosingOnlyBlocks(s: Store, i: nat, reason: Reason, k: nat)
    requires Ordered(s.messages) && i == Turnstile(s.messages) && CanSettle(s, i)
    requires forall j :: 0 <= j < |s.messages| ==> !s.messages[j].status.DeliveryUnknown?
    ensures var s', p := Lose(s, i, reason).value, LosingStore(s, i, reason, k);
      && OnlyToBlock(s', p, i) && OneActive(p.messages) && UnknownEndsTurns(p.messages)
      && forall j :: 0 <= j < |s'.messages| && TurnOf(s'.messages[j].status).Some? ==> p.messages[j].status == s'.messages[j].status
  {
    var status := DeliveryUnknown(TurnOfInflight(s, i, false), reason);
    LosingContent(s.messages, i, status, k);
    LosingBlocks(s.messages, i, status, k);
    LosingIsMendable(s.messages, i, status, k);
    BlockedKeepsOrdered(s.messages, status);
    NothingToBlock(BlockedTo(s.messages, i, status, |s.messages|), i);
  }

  /** Wherever losing a message is interrupted, recovery blocks the rest and closes. */
  lemma LoseIsFinished(s: Store, i: nat, reason: Reason, k: nat)
    requires Valid(s) && CanSettle(s, i)
    ensures Recover(LosingStore(s, i, reason, k)) == Lose(s, i, reason)
  {
    var s' := Lose(s, i, reason).value;
    ActiveIsTurn(s.messages, i);
    OpenIsKnown(s);
    LoseKeepsValid(s, i, reason);
    LosingLags(s, i, reason);
    LaggingIsRepaired(s', s.attempt);
    LosingOnlyBlocks(s, i, reason, k);
    LosingRepairs(s', LosingStore(s, i, reason, k), i);
  }

  // ----- The theorem -----

  /** While a message is active, no delivery is unknown. */
  lemma ActiveIsKnown(s: Store)
    requires Pointed(s.attempt, s.messages) && Phased(s.attempt, s.messages) && s.attempt.active.Some?
    ensures s.attempt.unknown.None?
  {
  }

  lemma SendWritesMessageFirst(s: Store, owner: string, key: string, text: string)
    requires SendOutcome(s, owner, key, text).Receipt?
    ensures TwoWrites(s, Sent(s, owner, key, text)) && s.attempt.unknown.None?
  {
  }

  lemma ClaimWritesMessageFirst(s: Store)
    requires Claim(s).Some?
    ensures TwoWrites(s, Claim(s).value) && s.attempt.unknown.None?
  {
  }

  lemma DeliverWritesMessageFirst(s: Store, i: nat)
    requires Deliver(s, i).Some?
    ensures TwoWrites(s, Deliver(s, i).value)
  {
  }

  lemma RejectWritesMessageFirst(s: Store, i: nat, reason: Reason)
    requires Reject(s, i, reason).Some?
    ensures TwoWrites(s, Reject(s, i, reason).value)
  {
  }

  lemma SendIsFinished(s: Store, owner: string, key: string, text: string)
    requires Valid(s) && SendOutcome(s, owner, key, text).Receipt?
    ensures Recover(s.(messages := Sent(s, owner, key, text).messages)) == Some(Sent(s, owner, key, text))
  {
    SendWritesMessageFirst(s, owner, key, text);
    SentKeepsValid(s, owner, key, text);
    MessageFirst(s, Sent(s, owner, key, text));
  }

  lemma ClaimIsFinished(s: Store)
    requires Valid(s) && Claim(s).Some? && s.attempt.primary.Some?
    ensures Recover(s.(messages := Claim(s).value.messages)) == Claim(s)
  {
    ClaimWritesMessageFirst(s);
    ClaimKeepsValid(s);
    MessageFirst(s, Claim(s).value);
  }

  lemma DeliverIsFinished(s: Store, i: nat)
    requires Valid(s) && Deliver(s, i).Some?
    ensures Recover(s.(messages := Deliver(s, i).value.messages)) == Deliver(s, i)
  {
    ActiveIsKnown(s);
    DeliverWritesMessageFirst(s, i);
    DeliverKeepsValid(s, i);
    MessageFirst(s, Deliver(s, i).value);
  }

  lemma RejectIsFinished(s: Store, i: nat, reason: Reason)
    requires Valid(s) && Reject(s, i, reason).Some? && s.attempt.active == Some(i + 1)
    ensures Recover(s.(messages := Reject(s, i, reason).value.messages)) == Reject(s, i, reason)
  {
    ActiveIsKnown(s);
    RejectWritesMessageFirst(s, i, reason);
    ActiveIsTurn(s.messages, i);
    RejectKeepsValid(s, i, reason);
    MessageFirst(s, Reject(s, i, reason).value);
  }

  lemma RejectedWritesMessageFirst(s: Store, k: nat, reason: Reason)
    requires k <= |s.messages|
    ensures TwoWrites(s, RejectedTo(s, k, reason))
  {
  }

  lemma NothingLeftToReject(s: Store, k: nat, reason: Reason)
    requires Pointed(s.attempt, s.messages) && Turnstile(s.messages) == |s.messages|
    ensures RejectedTo(s, k, reason) == s
  {
    assert RefusedTo(s.messages, k, reason) == s.messages;
  }

  /** A rejection whose aggregate write is missing. */
  lemma RejectedIsFinished(s: Store, k: nat, reason: Reason)
    requires Valid(s) && k <= |s.messages| && FirstInflight(s.messages, 0) == |s.messages|
    ensures var r := RejectedTo(s, k, reason);
      Valid(r) && Recover(r) == Some(r) && Recover(r.(attempt := s.attempt)) == Some(r)
  {
    var r := RejectedTo(s, k, reason);
    RejectedKeepsValid(s, k, reason);
    RecoverIsIdle(r);
    if s.attempt.unknown.Some? {
      NothingLeftToReject(s, k, reason);
    } else {
      RejectedWritesMessageFirst(s, k, reason);
      MessageFirst(s, r);
      assert s.(messages := r.messages) == r.(attempt := s.attempt);
    }
  }

  lemma ClosingIsValid(s: Store, reason: Reason)
    requires Valid(s) && Turnstile(s.messages) == |s.messages| && !s.attempt.lifecycle.Closed?
    ensures Valid(ClosingStore(s, reason)) && Recover(ClosingStore(s, reason)) == Some(ClosingStore(s, reason))
  {
    RecoverIsIdle(ClosingStore(s, reason));
  }

  lemma LosingInterruptIsFinished(s: Store, reason: Reason, p: Store)
    requires Valid(s) && Leaves(s, InterruptOp(reason), p) && FirstInflight(s.messages, 0) < |s.messages|
    ensures Recover(p) == Lose(s, FirstInflight(s.messages, 0), reason)
    ensures Recover(p).Some? && Valid(Recover(p).value)
  {
    var f := FirstInflight(s.messages, 0);
    LoseKeepsValid(s, f, reason);
    if k :| p == LosingStore(s, f, reason, k) {
      LoseIsFinished(s, f, reason, k);
    } else {
      RecoverIsIdle(p);
    }
  }

  lemma RejectedFinishes(s: Store, reason: Reason, k: nat)
    requires FirstInflight(s.messages, 0) == |s.messages| && k <= |s.messages|
    ensures Finishes(s, InterruptOp(reason), RejectedTo(s, k, reason))
    ensures Finishes(s, InterruptOp(reason), ClosingStore(RejectedTo(s, k, reason), reason))
  {
  }

  lemma RejectedThenClosing(s: Store, reason: Reason)
    requires Valid(s) && FirstInflight(s.messages, 0) == |s.messages| && !s.attempt.lifecycle.Closed?
    ensures var p := ClosingStore(RejectedTo(s, |s.messages|, reason), reason);
      Valid(p) && Recover(p) == Some(p)
  {
    var n := |s.messages|;
    RejectedIsFinished(s, n, reason);
    RejectedTurns(s.messages, n, reason);
    ClosingIsValid(RejectedTo(s, n, reason), reason);
  }

  lemma RejectingInterruptIsFinished(s: Store, reason: Reason, p: Store, k: nat)
    requires Valid(s) && FirstInflight(s.messages, 0) == |s.messages| && !s.attempt.lifecycle.Closed? && k <= |s.messages|
    requires var r := RejectedTo(s, k, reason);
      p == r || p == r.(attempt := s.attempt) || (k == |s.messages| && p == ClosingStore(r, reason))
    ensures Recover(p).Some? && Valid(Recover(p).value) && Finishes(s, InterruptOp(reason), Recover(p).value)
  {
    var r := RejectedTo(s, k, reason);
    RejectedFinishes(s, reason, k);
    if p == r || p == r.(attempt := s.attempt) {
      RejectedIsFinished(s, k, reason);
    } else {
      RejectedThenClosing(s, reason);
    }
  }

  lemma InterruptIsFinished(s: Store, reason: Reason, p: Store)
    requires Valid(s) && Leaves(s, InterruptOp(reason), p)
    ensures Recover(p).Some? && Valid(Recover(p).value) && Finishes(s, InterruptOp(reason), Recover(p).value)
  {
    if FirstInflight(s.messages, 0) < |s.messages| {
      LosingInterruptIsFinished(s, reason, p);
    } else {
      var k: nat :| k <= |s.messages|
        && (p == RejectedTo(s, k, reason) || p == RejectedTo(s, k, reason).(attempt := s.attempt)
            || (k == |s.messages| && p == ClosingStore(RejectedTo(s, k, reason), reason)));
      RejectingInterruptIsFinished(s, reason, p, k);
    }
  }

  /**
   A crash between any two writes of any operation: recovery accepts what it left, and turns it into
   the full effect of the operation, or, for an operation of several steps, into one of those steps.
   */
  lemma CrashIsRecovered(s: Store, op: Op, p: Store)
    requires Valid(s) && Leaves(s, op, p)
    ensures Recover(p).Some? && Valid(Recover(p).value) && Finishes(s, op, Recover(p).value)
  {
    match op
    case LoseOp(i, reason) =>
      var k :| p == LosingStore(s, i, reason, k);
      LoseIsFinished(s, i, reason, k);
      LoseKeepsValid(s, i, reason);
    case CloseOp(reason, recovery) =>
      assert Turnstile(s.messages) == |s.messages|;
      ClosingIsValid(s, reason);
    case InterruptOp(reason) => InterruptIsFinished(s, reason, p);
    case SendOp(owner, key, text) =>
      SendIsFinished(s, owner, key, text);
      ApplyKeepsValid(s, op);
    case ClaimOp =>
      ClaimIsFinished(s);
      ApplyKeepsValid(s, op);
    case DeliverOp(i) =>
      DeliverIsFinished(s, i);
      ApplyKeepsValid(s, op);
    case RejectOp(i, reason) =>
      RejectIsFinished(s, i, reason);
      ApplyKeepsValid(s, op);
    case _ =>
  }
}
