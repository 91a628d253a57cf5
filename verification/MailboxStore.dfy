/**
 The mailbox records as the broker changes them, one write at a time.  Every operation first finishes
 what an interrupted one left, then writes message records before the aggregate record.
 */
module MailboxStore {
  import opened Wrappers
  import opened Texts
  import opened Mailbox
  import opened MailboxOrder
  import opened MailboxCrash

  /** Recovery without the close and the refusals that an unknown turn demands. */
  function Unrepaired(s: Store): Store {
    var chained := WithChain(WithCounts(s.attempt, s.messages), s.messages);
    var f := FirstActive(s.messages, 0);
    s.(attempt := chained.(
         active := if UnknownTo(s.messages, |s.messages|).None? && f < |s.messages| then Some(f + 1) else None),
       messages := if chained.lifecycle.Closed? then Scrubbed(s.messages) else s.messages)
  }

  function RecoverWith(s: Store, skip: bool): Option<Store> {
    if !skip then Recover(s) else if Mendable(s) then Some(Unrepaired(s)) else None
  }

  /** Whether message `i` of the records is settled as unknown. */
  predicate Loses(s: Store, i: nat, reason: Reason) {
    RecoverWith(s, true).Some? && Lose(RecoverWith(s, true).value, i, reason).Some?
  }

  function Lost(s: Store, i: nat, reason: Reason): Store {
    if Loses(s, i, reason) then Lose(RecoverWith(s, true).value, i, reason).value
    else if RecoverWith(s, true).Some? then RecoverWith(s, true).value
    else s
  }

  /** The repair that is skipped makes no difference to a settlement: it is needed only where none is possible. */
  lemma SkippingLosesAlike(s: Store, i: nat, reason: Reason)
    ensures Loses(s, i, reason) <==> Performs(s, LoseOp(i, reason))
    ensures Loses(s, i, reason) ==> Lost(s, i, reason) == Performed(s, LoseOp(i, reason))
  {
  }

  class Sidecar {
    var attempt: Attempt
    var messages: seq<Message>
    var turnedAway: map<string, TurnedAway>

    ghost function Content(): Store
      reads this
    {
      Store(attempt, messages, turnedAway)
    }

    constructor (binding: nat)
      ensures Content() == Prepared(binding)
    {
      attempt := Prepared(binding).attempt;
      messages := [];
      turnedAway := map[];
    }

    // ----- Recovery -----

    /** Whether the accepted messages are contiguous and within the limits, and the counters a prefix of them. */
    method CheckCounts() returns (good: bool, bytes: nat)
      ensures good <==> Contiguous(messages) && CountsLag(attempt, messages)
      ensures good ==> bytes == TotalBytes(messages)
    {
      var contiguous := true;
      var prefix: Option<nat> := None;
      bytes := 0;
      for i := 0 to |messages|
        invariant bytes == BytesTo(messages, i)
        invariant contiguous <==> forall k :: 0 <= k < i ==> messages[k].sequence == k + 1 && messages[k].bytes >= 1
        invariant prefix == if attempt.acceptedCount < i then Some(BytesTo(messages, attempt.acceptedCount)) else None
      {
        if attempt.acceptedCount == i {
          prefix := Some(bytes);
        }
        contiguous := contiguous && messages[i].sequence == i + 1 && messages[i].bytes >= 1;
        bytes := bytes + messages[i].bytes;
      }
      if attempt.acceptedCount == |messages| {
        prefix := Some(bytes);
      }
      good := contiguous && |messages| <= MAX_MESSAGES && bytes <= MAX_BYTES
        && prefix == Some(attempt.acceptedBytes)
        && (attempt.active.Some? ==> 1 <= attempt.active.value <= |messages|);
    }

    /** Whether at most one message is claimed or inflight, and which. */
    method CheckActive() returns (single: bool, active: Option<nat>)
      ensures single <==> OneActive(messages)
      ensures active == var f := FirstActive(messages, 0); if f < |messages| then Some(f + 1) else None
    {
      single, active := true, None;
      for i := 0 to |messages|
        invariant active.None? ==> forall k :: 0 <= k < i ==> !Active(messages[k].status)
        invariant active.Some? ==> 0 < active.value <= i && Active(messages[active.value - 1].status)
        invariant active.Some? ==> forall k :: 0 <= k < active.value - 1 ==> !Active(messages[k].status)
        invariant single <==> forall j, k :: 0 <= j < k < i ==> !(Active(messages[j].status) && Active(messages[k].status))
      {
        if Active(messages[i].status) {
          if active.Some? {
            assert Active(messages[active.value - 1].status);
            single := false;
          } else {
            active := Some(i + 1);
          }
        }
      }
    }

    /** Whether no turn was completed behind an unknown one, and which one is unknown. */
    method CheckUnknown() returns (ended: bool, unknown: Option<nat>)
      ensures ended <==> UnknownEndsTurns(messages)
      ensures unknown == UnknownTo(messages, |messages|)
    {
      ended, unknown := true, None;
      for i := 0 to |messages|
        invariant unknown == UnknownTo(messages, i)
        invariant ended <==> forall j, k :: 0 <= j < k < i && messages[j].status.DeliveryUnknown? ==> TurnOf(messages[k].status).None?
      {
        ended := ended && (unknown.None? || TurnOf(messages[i].status).None?);
        if unknown.None? && messages[i].status.DeliveryUnknown? {
          unknown := Some(i + 1);
        }
      }
    }

    /** Whether the completed turns form one chain of which the aggregate holds a prefix, and where it ends. */
    method CheckTurns() returns (good: bool, chain: Chain, last: Option<nat>)
      ensures good <==> ChainLags(attempt, messages)
      ensures good ==> attempt.(chain := chain, last := last) == WithChain(attempt, messages)
    {
      var linked, none := true, true;
      chain, last := attempt.chain, attempt.last;
      if attempt.primary.Some? {
        chain, last := attempt.primary.value, Some(0);
      }
      for i := 0 to |messages|
        invariant none <==> forall k :: 0 <= k < i ==> TurnOf(messages[k].status).None?
        invariant attempt.primary.None? ==> chain == attempt.chain && last == attempt.last
        invariant attempt.primary.Some? ==>
          && chain == ChainTo(attempt.primary.value, messages, i) && last == Some(LastTo(messages, i))
          && (linked <==> forall k :: 0 <= k < i ==> ExtendsChain(attempt.primary.value, messages, k))
      {
        var turn := TurnOf(messages[i].status);
        if turn.Some? {
          none := false;
          if attempt.primary.Some? {
            linked := linked && ExtendsChain(attempt.primary.value, messages, i);
            chain, last := turn.value, Some(i + 1);
          }
        }
      }
      good := match attempt.primary
        case None => none && attempt.last.None?
        case Some(primary) => linked && IsPrimary(primary, attempt.binding) && AtTurn(primary, attempt.last);
    }

    /** Whether the aggregate chain is the one after turn `last`. */
    predicate AtTurn(primary: Chain, last: Option<nat>)
      reads this
    {
      && last.Some? && last.value <= |messages|
      && (if last.value == 0 then attempt.chain == primary else TurnOf(messages[last.value - 1].status) == Some(attempt.chain))
    }

    /** Blocks every message behind position `u` that still waits, one write after the other. */
    method BlockWaiting(u: nat)
      modifies this`messages
      ensures messages == BlockedBehind(old(messages), u)
    {
      for i := 0 to |messages|
        invariant |messages| == |old(messages)|
        invariant forall j :: 0 <= j < |messages| ==>
          messages[j] == if u < j < i then Blocked(old(messages)[j]) else old(messages)[j]
      {
        if i > u {
          messages := messages[i := Blocked(messages[i])];
        }
      }
      assert messages == BlockedBehind(old(messages), u);
    }

    /** What the unknown delivery at position `u` demands. */
    method CloseOnUnknown(u: nat)
      requires u < |messages| && messages[u].status.DeliveryUnknown?
      modifies this`messages, this`attempt
      ensures messages == BlockedBehind(old(messages), u)
      ensures attempt == WithUnknown(old(attempt), old(messages), u).(active := old(attempt).active)
    {
      var reason := messages[u].status.reason;
      BlockWaiting(u);
      attempt := attempt.(
        lifecycle := if attempt.lifecycle.Closed? then Closed else Closing,
        unknown := Some(u + 1),
        closeReason := Some(if attempt.closeReason.Some? then attempt.closeReason.value else reason));
    }

    /** Removes every body that a closed mailbox still holds. */
    method Scrub()
      modifies this`messages
      ensures messages == Scrubbed(old(messages))
    {
      for i := 0 to |messages|
        invariant |messages| == |old(messages)|
        invariant forall j :: 0 <= j < i ==> messages[j] == Scrubbed(old(messages))[j]
        invariant forall j :: i <= j < |messages| ==> messages[j] == old(messages)[j]
      {
        if messages[i].status.Accepted? || messages[i].status.Claimed? {
          messages := messages[i := messages[i].(status := Refused(ScrubbedOnClose))];
        }
      }
      assert messages == Scrubbed(old(messages));
    }

    /**
     Finishes any interrupted operation from the message records, or refuses the records unchanged.  With
     `skip` it leaves out what an unknown turn demands, for a caller that settles one itself.
     */
    method RecoverConsistency(skip: bool) returns (ok: bool)
      modifies this
      ensures ok <==> RecoverWith(old(Content()), skip).Some?
      ensures Content() == if ok then RecoverWith(old(Content()), skip).value else old(Content())
    {
      ghost var before := Content();
      var counts, bytes := CheckCounts();
      var single, active := CheckActive();
      var ended, unknown := CheckUnknown();
      var turns, chain, last := CheckTurns();
      ok := counts && single && ended && turns;
      assert ok <==> Mendable(before);
      if ok {
        attempt := attempt.(chain := chain, last := last, acceptedCount := |messages|, acceptedBytes := bytes);
        assert attempt == WithChain(WithCounts(before.attempt, messages), messages);
        if unknown.Some? && !skip {
          CloseOnUnknown(unknown.value - 1);
        }
        attempt := attempt.(active := if unknown.Some? then None else active);
        if attempt.lifecycle.Closed? {
          Scrub();
        }
      }
    }

    // ----- Operations -----

    method Open() returns (done: bool)
      modifies this
      ensures done <==> Apply(old(Content()), OpenOp).Some?
      ensures Content() == if done then Apply(old(Content()), OpenOp).value else old(Content())
    {
      done := attempt.lifecycle.Preparing? || attempt.lifecycle.Open?;
      if done {
        attempt := attempt.(lifecycle := Lifecycle.Open);
      }
    }

    /** Finds the message that used this key before. */
    method FindByIdempotency(key: string) returns (at: Option<nat>)
      ensures at == LookupTo(messages, |messages|, key)
    {
      at := None;
      for i := 0 to |messages|
        invariant at == LookupTo(messages, i, key)
      {
        if at.None? && messages[i].key == key {
          at := Some(i);
        }
      }
    }

    /** What an earlier request with this key gets again. */
    method FindReplay(owner: string, key: string, text: string) returns (replay: Option<SendResult>)
      ensures replay == ReplayOf(Content(), owner, key, text)
    {
      replay := None;
      var at := FindByIdempotency(key);
      if at.Some? {
        var m := messages[at.value];
        replay := Some(if m.owner == owner && m.content == text then Replay(m.sequence) else Conflict);
      } else if key in turnedAway {
        var t := turnedAway[key];
        replay := Some(if t.owner == owner && t.content == text then Replay(0) else Conflict);
      }
    }

    /** Accepts a message under the next number, or remembers apart why it was turned away. */
    method Accept(owner: string, key: string, text: string) returns (result: SendResult)
      requires Usable(key, text)
      modifies this
      ensures Content() == Performed(old(Content()), SendOp(owner, key, text))
      ensures result ==
        if Recover(old(Content())).Some? then SendOutcome(Recover(old(Content())).value, owner, key, text) else Unavailable
    {
      var ok := RecoverConsistency(false);
      if !ok {
        return Unavailable;
      }
      ghost var before := Content();
      var replay := FindReplay(owner, key, text);
      var bytes := Utf8Bytes(text);
      if replay.Some? {
        result := replay.value;
      } else if !attempt.lifecycle.Open? {
        result := Unavailable;
      } else if attempt.unknown.Some? {
        result := TurnAway(owner, key, text, BlockedByPriorUnknown);
      } else if attempt.acceptedCount + 1 > MAX_MESSAGES {
        result := TurnAway(owner, key, text, MessageLimit);
      } else if attempt.acceptedBytes + bytes > MAX_BYTES {
        result := TurnAway(owner, key, text, ByteLimit);
      } else {
        var sequence := attempt.acceptedCount + 1;
        messages := messages + [Message(sequence, owner, key, text, bytes, Accepted(text))];
        assert Leaves(before, SendOp(owner, key, text), Content());
        attempt := attempt.(acceptedCount := sequence, acceptedBytes := attempt.acceptedBytes + bytes);
        result := Receipt(sequence);
      }
    }

    method TurnAway(owner: string, key: string, text: string, reason: Reason) returns (result: SendResult)
      modifies this`turnedAway
      ensures turnedAway == old(turnedAway)[key := TurnedAway.TurnedAway(owner, text, reason)] && result == Declined(reason)
    {
      turnedAway := turnedAway[key := TurnedAway.TurnedAway(owner, text, reason)];
      result := Declined(reason);
    }

    /** Claims the first message that waits. */
    method ClaimNext() returns (claimed: Option<nat>)
      modifies this
      ensures Content() == Performed(old(Content()), ClaimOp)
      ensures claimed == if Performs(old(Content()), ClaimOp) then Some(WaitingFrom(Recover(old(Content())).value.messages, 0)) else None
    {
      claimed := None;
      var ok := RecoverConsistency(false);
      if !ok || attempt.primary.None? || !attempt.lifecycle.Open? || attempt.unknown.Some? || attempt.active.Some? {
        return;
      }
      ghost var before := Content();
      var w := 0;
      while w < |messages| && !messages[w].status.Accepted?
        invariant w <= |messages| && WaitingFrom(messages, w) == WaitingFrom(messages, 0)
      {
        w := w + 1;
      }
      if w < |messages| {
        messages := messages[w := messages[w].(status := Claimed(messages[w].status.body))];
        assert Leaves(before, ClaimOp, Content());
        attempt := attempt.(active := Some(w + 1));
        claimed := Some(w);
      }
    }

    /** Erases the body and records the id before the prompt goes out. */
    method MarkInflight(i: nat, rpc: nat, prompt: string) returns (done: bool)
      modifies this
      ensures done <==> Performs(old(Content()), AnnounceOp(i, rpc, prompt))
      ensures Content() == Performed(old(Content()), AnnounceOp(i, rpc, prompt))
    {
      var ok := RecoverConsistency(false);
      done := ok && attempt.lifecycle.Open? && i < |messages| && messages[i].status.Claimed? && attempt.active == Some(i + 1);
      if done {
        messages := messages[i := messages[i].(status := Inflight(rpc, prompt))];
      }
    }

    method SettleDelivered(i: nat) returns (done: bool)
      modifies this
      ensures done <==> Performs(old(Content()), DeliverOp(i))
      ensures Content() == Performed(old(Content()), DeliverOp(i))
    {
      var ok := RecoverConsistency(false);
      ghost var before := Content();
      done := ok && i < |messages| && messages[i].status.Inflight? && attempt.active == Some(i + 1) && attempt.primary.Some?;
      if done {
        var m := messages[i];
        var turn := Link(attempt.chain, i + 1, m.content, m.status.prompt, true, Some(m.status.rpc));
        messages := messages[i := m.(status := Status.Delivered(turn))];
        assert Leaves(before, DeliverOp(i), Content());
        attempt := attempt.(chain := turn, last := Some(i + 1), active := None);
      }
    }

    /** After every single write the records are those of `LosingStore` for some `k`. */
    method WriteUnknown(i: nat, status: Status)
      requires i < |messages| && status.DeliveryUnknown?
      modifies this`messages
      ensures messages == BlockedTo(old(messages), i, status, |old(messages)|)
    {
      messages := messages[i := messages[i].(status := status)];
      assert messages == BlockedTo(old(messages), i, status, 0);
      for k := 0 to |messages|
        invariant messages == BlockedTo(old(messages), i, status, k)
      {
        if messages[k].status.Accepted? || messages[k].status.Claimed? {
          messages := messages[k := messages[k].(status := Refused(BlockedByPriorUnknown))];
        }
        assert messages == BlockedTo(old(messages), i, status, k + 1);
      }
    }

    /** The writes of an ambiguous turn: the message first, then every waiting one, then the close. */
    method WriteLoss(i: nat, reason: Reason)
      requires CanSettle(Content(), i)
      modifies this
      ensures Some(Content()) == Lose(old(Content()), i, reason)
    {
      ghost var before := Content();
      var m := messages[i];
      var turn := Link(attempt.chain, i + 1, m.content, m.status.prompt, false, Some(m.status.rpc));
      WriteUnknown(i, DeliveryUnknown(turn, reason));
      assert Content() == LosingStore(before, i, reason, |messages|);
      attempt := attempt.(
        lifecycle := if attempt.lifecycle.Closed? then Closed else Closing,
        chain := turn, last := Some(i + 1), unknown := Some(i + 1), active := None, closeReason := Some(reason));
    }

    /** An ambiguous turn is settled once and never retried. */
    method SettleUnknown(i: nat, reason: Reason) returns (done: bool)
      modifies this
      ensures done <==> Loses(old(Content()), i, reason)
      ensures Content() == Lost(old(Content()), i, reason)
    {
      var ok := RecoverConsistency(true);
      done := ok && i < |messages| && messages[i].status.Inflight? && attempt.active == Some(i + 1) && attempt.primary.Some?;
      if done {
        WriteLoss(i, reason);
      }
    }

    method SettleRejected(i: nat, reason: Reason) returns (done: bool)
      modifies this
      ensures done <==> Reject(old(Content()), i, reason).Some?
      ensures Content() == if done then Reject(old(Content()), i, reason).value else old(Content())
    {
      done := i < |messages| && (messages[i].status.Accepted? || messages[i].status.Claimed?);
      if done {
        messages := messages[i := messages[i].(status := Refused(reason))];
        if attempt.active == Some(i + 1) {
          attempt := attempt.(active := None);
        }
      }
    }

    /** The final empty scan. */
    method AnyUnfinished() returns (found: bool)
      ensures found <==> Unfinished(messages)
    {
      found := false;
      for i := 0 to |messages|
        invariant found <==> exists k :: 0 <= k < i && !Done(messages[k].status)
      {
        found := found || !Done(messages[i].status);
      }
    }

    method TryCloseMailbox(reason: Reason, recovery: bool) returns (closed: bool)
      modifies this
      ensures closed <==> Performs(old(Content()), CloseOp(reason, recovery))
      ensures Content() == Performed(old(Content()), CloseOp(reason, recovery))
    {
      closed := RecoverConsistency(false);
      ghost var before := Content();
      if !closed || attempt.lifecycle.Closed? {
        return;
      }
      var unfinished := AnyUnfinished();
      closed := (!attempt.lifecycle.Preparing? || recovery) && !unfinished;
      if closed {
        var because := if attempt.closeReason.Some? then attempt.closeReason.value else reason;
        attempt := attempt.(lifecycle := Closing, closeReason := Some(because));
        assert Leaves(before, CloseOp(reason, recovery), Content());
        attempt := attempt.(lifecycle := Closed);
      }
    }

    /** Turns down every waiting message, one by one. */
    method RejectWaiting(reason: Reason)
      requires OnlyClaimed(attempt, messages)
      modifies this
      ensures Content() == RejectedTo(old(Content()), |old(messages)|, reason)
    {
      ghost var before := Content();
      assert messages == RefusedTo(before.messages, 0, reason);
      for k := 0 to |messages|
        invariant |messages| == |before.messages|
        invariant Content() == RejectedTo(before, k, reason)
      {
        RejectOneMore(before, k, reason);
        var done := SettleRejected(k, reason);
      }
    }

    method FindInflight() returns (f: nat)
      ensures f == FirstInflight(messages, 0)
    {
      f := 0;
      while f < |messages| && !messages[f].status.Inflight?
        invariant f <= |messages| && FirstInflight(messages, f) == FirstInflight(messages, 0)
      {
        f := f + 1;
      }
    }

    /** The ambiguous message becomes unknown; without one, everything that waits is turned down. */
    method SettleMessages(reason: Reason)
      requires Staged(Content(), reason) && !attempt.lifecycle.Closed?
      modifies this
      ensures Content() == MessagesSettled(old(Content()), reason)
    {
      var f := FindInflight();
      if f < |messages| {
        SkippingLosesAlike(Content(), f, reason);
        var lost := SettleUnknown(f, reason);
      } else {
        RejectWaiting(reason);
      }
    }

    method CloseInterrupted(reason: Reason)
      requires Staged(Content(), reason) && !attempt.lifecycle.Closed?
      modifies this
      ensures Content() == Performed(MessagesSettled(old(Content()), reason), CloseOp(reason, true))
    {
      SettleMessages(reason);
      var closed := TryCloseMailbox(reason, true);
    }

    /** Settlement after the provider or its controller is lost; it always closes. */
    method SettleInterrupted(reason: Reason) returns (closed: bool)
      requires RecoversValid(Content())
      modifies this
      ensures closed <==> Recover(old(Content())).Some?
      ensures Content() == Performed(old(Content()), InterruptOp(reason))
      ensures closed ==> attempt.lifecycle.Closed?
    {
      InterruptedRecords(Content(), reason);
      closed := RecoverConsistency(false);
      if closed && !attempt.lifecycle.Closed? {
        CloseInterrupted(reason);
      }
    }

    method RecordPrimaryTurn(content: string) returns (done: bool)
      modifies this
      ensures done <==> Performs(old(Content()), PrimaryOp(content))
      ensures Content() == Performed(old(Content()), PrimaryOp(content))
    {
      var ok := RecoverConsistency(false);
      done := ok && attempt.lifecycle.Open? && attempt.primary.None? && attempt.last.None? && attempt.active.None?;
      if done {
        var turn := Link(attempt.chain, 0, content, content, true, None);
        attempt := attempt.(chain := turn, primary := Some(turn), last := Some(0));
      }
    }
  }

  /** An active message was not announced yet. */
  predicate OnlyClaimed(a: Attempt, messages: seq<Message>) {
    a.active.Some? ==> 1 <= a.active.value <= |messages| && messages[a.active.value - 1].status.Claimed?
  }

  lemma RejectOneMore(s: Store, k: nat, reason: Reason)
    requires k < |s.messages| && OnlyClaimed(s.attempt, s.messages)
    ensures var r := RejectedTo(s, k, reason);
      RejectedTo(s, k + 1, reason) == if Reject(r, k, reason).Some? then Reject(r, k, reason).value else r
  {
    var more := RefusedTo(s.messages, k + 1, reason);
    if s.messages[k].status.Accepted? || s.messages[k].status.Claimed? {
      assert more == RefusedTo(s.messages, k, reason)[k := s.messages[k].(status := Refused(reason))];
    } else {
      assert more == RefusedTo(s.messages, k, reason);
    }
  }

  /** What an interruption leaves before it closes. */
  function MessagesSettled(s: Store, reason: Reason): Store
    requires var f := FirstInflight(s.messages, 0); f < |s.messages| ==> CanSettle(s, f)
  {
    var f := FirstInflight(s.messages, 0);
    if f < |s.messages| then Lose(s, f, reason).value else RejectedTo(s, f, reason)
  }

  ghost predicate Staged(s: Store, reason: Reason) {
    var f := FirstInflight(s.messages, 0);
    && Recover(s) == Some(s)
    && (if f < |s.messages| then CanSettle(s, f) else OnlyClaimed(s.attempt, s.messages))
  }

  lemma InterruptIsStaged(s: Store, reason: Reason)
    requires Valid(s)
    ensures Staged(s, reason)
  {
    RecoverIsIdle(s);
    if FirstInflight(s.messages, 0) < |s.messages| {
      InflightIsTurn(s, FirstInflight(s.messages, 0));
    }
  }

  lemma MessagesSettledIsComplete(s: Store, reason: Reason)
    requires Valid(s) && Staged(s, reason)
    ensures Recover(MessagesSettled(s, reason)) == Some(MessagesSettled(s, reason))
  {
    var f := FirstInflight(s.messages, 0);
    if f < |s.messages| {
      LoseKeepsValid(s, f, reason);
      RecoverIsIdle(Lose(s, f, reason).value);
    } else {
      RejectedIsFinished(s, f, reason);
    }
  }

  lemma InterruptIsTwoSteps(s: Store, reason: Reason)
    requires var f := FirstInflight(s.messages, 0); f < |s.messages| ==> CanSettle(s, f)
    requires !s.attempt.lifecycle.Closed?
    ensures Interrupt(s, reason) == TryClose(MessagesSettled(s, reason), reason, true)
  {
  }

  lemma PerformedOnComplete(s: Store, op: Op)
    requires Recover(s) == Some(s) && Apply(s, op).Some?
    ensures Performed(s, op) == Apply(s, op).value
  {
  }

  lemma SettledThenClosed(s: Store, reason: Reason)
    requires Staged(s, reason) && !s.attempt.lifecycle.Closed? && Interrupt(s, reason).Some?
    requires Recover(MessagesSettled(s, reason)) == Some(MessagesSettled(s, reason))
    ensures Performed(MessagesSettled(s, reason), CloseOp(reason, true)) == Interrupt(s, reason).value
  {
    InterruptIsTwoSteps(s, reason);
    PerformedOnComplete(MessagesSettled(s, reason), CloseOp(reason, true));
  }

  /** An interruption goes through complete records only, and closes. */
  lemma InterruptStages(s: Store, reason: Reason)
    requires Valid(s)
    ensures Staged(s, reason) && Interrupt(s, reason).Some? && Interrupt(s, reason).value.attempt.lifecycle.Closed?
    ensures Interrupt(s, reason).value ==
      if s.attempt.lifecycle.Closed? then s else Performed(MessagesSettled(s, reason), CloseOp(reason, true))
  {
    InterruptIsStaged(s, reason);
    InterruptCloses(s, reason);
    if !s.attempt.lifecycle.Closed? {
      MessagesSettledIsComplete(s, reason);
      SettledThenClosed(s, reason);
    }
  }

  /** Records that no crash has damaged beyond what the operations leave. */
  ghost predicate RecoversValid(s: Store) {
    Recover(s).Some? ==> Valid(Recover(s).value)
  }

  lemma InterruptedRecords(s: Store, reason: Reason)
    requires RecoversValid(s)
    ensures Recover(s).Some? ==>
      var r, result := Recover(s).value, Performed(s, InterruptOp(reason));
      && Staged(r, reason) && result.attempt.lifecycle.Closed?
      && result == if r.attempt.lifecycle.Closed? then r else Performed(MessagesSettled(r, reason), CloseOp(reason, true))
  {
    if Recover(s).Some? {
      InterruptStages(Recover(s).value, reason);
    }
  }

  /** Whether `op` is performed once recovery has finished what the records hold. */
  ghost predicate Performs(s: Store, op: Op) {
    Recover(s).Some? && Apply(Recover(s).value, op).Some?
  }

  /** What the records become. */
  ghost function Performed(s: Store, op: Op): Store {
    if Performs(s, op) then Apply(Recover(s).value, op).value
    else if Recover(s).Some? then Recover(s).value
    else s
  }

  /** Every operation keeps the records such that recovery finishes them. */
  lemma PerformedKeepsRecovery(s: Store, op: Op)
    requires Recover(s).Some? && Valid(Recover(s).value)
    ensures Valid(Performed(s, op)) && Recover(Performed(s, op)) == Some(Performed(s, op))
  {
    if Apply(Recover(s).value, op).Some? {
      ApplyKeepsValid(Recover(s).value, op);
    }
    RecoverIsIdle(Performed(s, op));
  }
}
