/** What every mailbox operation keeps: numbering, the queue order, the chain and the cumulative limits. */
module MailboxOrder {
  import opened Wrappers
  import opened Texts
  import opened Mailbox

  predicate Numbered(messages: seq<Message>) {
    forall i :: 0 <= i < |messages| ==>
      && messages[i].sequence == i + 1 && messages[i].content != ""
      && messages[i].bytes == Utf8Bytes(messages[i].content)
      && (messages[i].status.Accepted? || messages[i].status.Claimed? ==> messages[i].status.body == messages[i].content)
  }

  /** Behind the turnstile every message still waits, body and all. */
  predicate Queued(messages: seq<Message>) {
    forall i :: Turnstile(messages) < i < |messages| ==> messages[i].status.Accepted?
  }

  /** Nothing behind an unknown delivery was attempted. */
  predicate UnknownLast(messages: seq<Message>) {
    forall i, j :: 0 <= i < j < |messages| && messages[i].status.DeliveryUnknown? ==> messages[j].status.Refused?
  }

  predicate DistinctKeys(s: Store) {
    && (forall i, j :: 0 <= i < j < |s.messages| ==> s.messages[i].key != s.messages[j].key)
    && (forall i :: 0 <= i < |s.messages| ==> s.messages[i].key !in s.turnedAway)
  }

  predicate Counted(a: Attempt, messages: seq<Message>) {
    && a.acceptedCount == |messages| <= MAX_MESSAGES
    && a.acceptedBytes == TotalBytes(messages) <= MAX_BYTES
  }

  predicate IsPrimary(turn: Chain, binding: nat) {
    turn.Link? && turn.previous == Genesis(binding) && turn.sequence == 0 && turn.delivered && turn.rpc.None?
  }

  /** The turn of message `i` names its content, prompt, id and outcome and extends the chain before it. */
  predicate ExtendsChain(start: Chain, messages: seq<Message>, i: nat)
    requires i < |messages|
  {
    var turn := TurnOf(messages[i].status);
    turn.Some? ==>
      && turn.value.Link? && turn.value.previous == ChainTo(start, messages, i)
      && turn.value.sequence == messages[i].sequence && turn.value.content == messages[i].content
      && turn.value.delivered == messages[i].status.Delivered? && turn.value.rpc.Some?
  }

  predicate Turns(start: Chain, messages: seq<Message>) {
    forall i :: 0 <= i < |messages| ==> ExtendsChain(start, messages, i)
  }

  predicate Chained(a: Attempt, messages: seq<Message>) {
    match a.primary
    case None =>
      && a.chain == Genesis(a.binding) && a.last.None?
      && forall i :: 0 <= i < |messages| ==> TurnOf(messages[i].status).None? && !Active(messages[i].status)
    case Some(primary) =>
      && IsPrimary(primary, a.binding) && Turns(primary, messages)
      && a.chain == ChainTo(primary, messages, |messages|) && a.last == Some(LastTo(messages, |messages|))
  }

  predicate Pointed(a: Attempt, messages: seq<Message>) {
    a.active == ActiveOf(messages) && a.unknown == UnknownTo(messages, |messages|)
  }

  predicate Shutting(a: Attempt) {
    a.lifecycle.Closing? || a.lifecycle.Closed?
  }

  predicate Phased(a: Attempt, messages: seq<Message>) {
    && (a.lifecycle.Preparing? ==> messages == [] && a.primary.None?)
    && (a.closeReason.Some? <==> Shutting(a))
    && (Shutting(a) ==> Turnstile(messages) == |messages|)
    && (a.unknown.Some? ==> Shutting(a))
  }

  predicate Ordered(messages: seq<Message>) {
    Numbered(messages) && Queued(messages) && UnknownLast(messages)
  }

  predicate Valid(s: Store) {
    && Ordered(s.messages) && DistinctKeys(s)
    && Counted(s.attempt, s.messages) && Chained(s.attempt, s.messages)
    && Pointed(s.attempt, s.messages) && Phased(s.attempt, s.messages)
  }

  // ----- Chains along a list -----

  /** The first `k` messages of both lists have the same turns. */
  predicate SameTurns(a: seq<Message>, b: seq<Message>, k: nat)
    requires k <= |a| && k <= |b|
  {
    forall i :: 0 <= i < k ==> TurnOf(a[i].status) == TurnOf(b[i].status)
  }

  lemma {:induction false} SameTurnsSameChain(start: Chain, a: seq<Message>, b: seq<Message>, k: nat)
    requires k <= |a| && k <= |b| && SameTurns(a, b, k)
    ensures ChainTo(start, a, k) == ChainTo(start, b, k) && LastTo(a, k) == LastTo(b, k)
  {
    if k > 0 {
      SameTurnsSameChain(start, a, b, k - 1);
    }
  }

  /** Messages without a turn leave the chain where it is. */
  lemma {:induction false} NoTurnsNoLinks(start: Chain, messages: seq<Message>, k: nat, n: nat)
    requires k <= n <= |messages| && forall i :: k <= i < n ==> TurnOf(messages[i].status).None?
    ensures ChainTo(start, messages, n) == ChainTo(start, messages, k) && LastTo(messages, n) == LastTo(messages, k)
    decreases n - k
  {
    if k < n {
      NoTurnsNoLinks(start, messages, k, n - 1);
    }
  }

  lemma SameTurnsKeepLinks(start: Chain, a: seq<Message>, b: seq<Message>, i: nat)
    requires i < |a| && i < |b| && SameTurns(a, b, i) && ExtendsChain(start, a, i)
    requires TurnOf(b[i].status) == TurnOf(a[i].status) && b[i].sequence == a[i].sequence && b[i].content == a[i].content
    requires TurnOf(a[i].status).Some? ==> b[i].status == a[i].status
    ensures ExtendsChain(start, b, i)
  {
    SameTurnsSameChain(start, a, b, i);
  }

  lemma {:induction false} UnknownToIs(messages: seq<Message>, k: nat, u: nat)
    requires u < k <= |messages| && messages[u].status.DeliveryUnknown?
    requires forall i :: 0 <= i < u ==> !messages[i].status.DeliveryUnknown?
    ensures UnknownTo(messages, k) == Some(u + 1)
  {
    if k > u + 1 {
      UnknownToIs(messages, k - 1, u);
    }
  }

  lemma {:induction false} SameBytes(a: seq<Message>, b: seq<Message>, k: nat)
    requires k <= |a| && k <= |b| && forall i :: 0 <= i < k ==> a[i].bytes == b[i].bytes
    ensures BytesTo(a, k) == BytesTo(b, k)
  {
    if k > 0 {
      SameBytes(a, b, k - 1);
    }
  }

  /** Two message lists that differ at most in status. */
  predicate SameContent(a: seq<Message>, b: seq<Message>) {
    && |a| == |b|
    && forall i :: 0 <= i < |a| ==> b[i] == a[i].(status := b[i].status)
  }

  lemma SameContentCounts(s: Store, s': Store)
    requires Counted(s.attempt, s.messages) && DistinctKeys(s) && SameContent(s.messages, s'.messages)
    requires s'.attempt.acceptedCount == s.attempt.acceptedCount && s'.attempt.acceptedBytes == s.attempt.acceptedBytes
    requires s'.turnedAway == s.turnedAway
    ensures Counted(s'.attempt, s'.messages) && DistinctKeys(s')
  {
    SameBytes(s.messages, s'.messages, |s.messages|);
  }

  // ----- Changing the message whose turn it is -----

  function AtTurn(messages: seq<Message>, status: Status): seq<Message>
    requires Turnstile(messages) < |messages|
  {
    var t := Turnstile(messages);
    messages[t := messages[t].(status := status)]
  }

  lemma AtTurnMoves(messages: seq<Message>, status: Status)
    requires Queued(messages) && Turnstile(messages) < |messages|
    ensures var t, messages' := Turnstile(messages), AtTurn(messages, status);
      && Turnstile(messages') == (if Done(status) then t + 1 else t)
      && Queued(messages') && SameContent(messages, messages')
  {
    var t, messages' := Turnstile(messages), AtTurn(messages, status);
    if Done(status) {
      assert t + 1 < |messages| ==> messages'[t + 1] == messages[t + 1];
      TurnstileIs(messages', t + 1);
    } else {
      TurnstileIs(messages', t);
    }
  }

  /** Before the close there is no unknown delivery. */
  lemma OpenIsKnown(s: Store)
    requires Pointed(s.attempt, s.messages) && Phased(s.attempt, s.messages) && !Shutting(s.attempt)
    ensures forall i :: 0 <= i < |s.messages| ==> !s.messages[i].status.DeliveryUnknown?
  {
  }

  lemma AtTurnKeepsOrdered(messages: seq<Message>, status: Status)
    requires Ordered(messages) && Turnstile(messages) < |messages|
    requires forall i :: 0 <= i < |messages| ==> !messages[i].status.DeliveryUnknown?
    requires !status.DeliveryUnknown?
    requires status.Accepted? || status.Claimed? ==> status.body == messages[Turnstile(messages)].content
    ensures Ordered(AtTurn(messages, status)) && UnknownTo(AtTurn(messages, status), |messages|).None?
  {
    AtTurnMoves(messages, status);
  }

  /** A change at the turn that completes no turn leaves the chain as it is. */
  lemma AtTurnKeepsChained(a: Attempt, messages: seq<Message>, status: Status)
    requires Chained(a, messages) && Queued(messages) && Turnstile(messages) < |messages|
    requires TurnOf(status).None? && (Active(status) ==> a.primary.Some?)
    ensures Chained(a, AtTurn(messages, status))
  {
    var t, messages' := Turnstile(messages), AtTurn(messages, status);
    if a.primary.Some? {
      SameTurnsSameChain(a.primary.value, messages, messages', |messages|);
      forall i | 0 <= i < |messages|
        ensures ExtendsChain(a.primary.value, messages', i)
      {
        assert ExtendsChain(a.primary.value, messages, i);
        SameTurnsKeepLinks(a.primary.value, messages, messages', i);
      }
    }
  }

  /** A completed turn at the turnstile extends the chain by one link. */
  lemma AtTurnExtendsChain(a: Attempt, messages: seq<Message>, status: Status, a': Attempt)
    requires Chained(a, messages) && Queued(messages) && Turnstile(messages) < |messages| && a.primary.Some?
    requires TurnOf(status).Some? && a'.binding == a.binding && a'.primary == a.primary
    requires var t := Turnstile(messages);
      var turn := TurnOf(status).value;
      && messages[t].sequence == t + 1 && turn.Link?
      && turn == Link(a.chain, t + 1, messages[t].content, turn.prompt, status.Delivered?, turn.rpc) && turn.rpc.Some?
      && a'.chain == turn && a'.last == Some(t + 1)
    ensures Chained(a', AtTurn(messages, status))
  {
    var p, n := a.primary.value, |messages|;
    var t, messages' := Turnstile(messages), AtTurn(messages, status);
    NoTurnsNoLinks(p, messages, t, n);
    NoTurnsNoLinks(p, messages', t + 1, n);
    SameTurnsSameChain(p, messages, messages', t);
    forall i | 0 <= i < n
      ensures ExtendsChain(p, messages', i)
    {
      assert ExtendsChain(p, messages, i);
      if i < t {
        SameTurnsKeepLinks(p, messages, messages', i);
      }
    }
  }

  // ----- Every operation -----

  lemma PreparedIsValid(binding: nat)
    ensures Valid(Prepared(binding))
  {
  }

  lemma OpenedKeepsValid(s: Store)
    requires Valid(s) && Opened(s).Some?
    ensures Valid(Opened(s).value)
  {
  }

  lemma PrimaryKeepsValid(s: Store, content: string)
    requires Valid(s) && RecordPrimary(s, content).Some?
    ensures Valid(RecordPrimary(s, content).value)
  {
    var s' := RecordPrimary(s, content).value;
    var p := s'.attempt.primary.value;
    NoTurnsNoLinks(p, s.messages, 0, |s.messages|);
    forall i | 0 <= i < |s.messages|
      ensures ExtendsChain(p, s.messages, i)
    {
    }
  }

  lemma AppendKeepsOrdered(messages: seq<Message>, m: Message)
    requires Ordered(messages) && m.sequence == |messages| + 1 && m.content != "" && m.bytes == Utf8Bytes(m.content)
    requires m.status == Accepted(m.content)
    requires forall i :: 0 <= i < |messages| ==> !messages[i].status.DeliveryUnknown?
    ensures Ordered(messages + [m]) && Turnstile(messages + [m]) == Turnstile(messages)
    ensures UnknownTo(messages + [m], |messages| + 1).None? && ActiveOf(messages + [m]) == ActiveOf(messages)
  {
    TurnstileIs(messages + [m], Turnstile(messages));
  }

  lemma AppendKeepsChained(a: Attempt, messages: seq<Message>, m: Message)
    requires Chained(a, messages) && m.status.Accepted?
    ensures Chained(a, messages + [m])
  {
    var messages' := messages + [m];
    if a.primary.Some? {
      var p := a.primary.value;
      SameTurnsSameChain(p, messages, messages', |messages|);
      forall i | 0 <= i < |messages'|
        ensures ExtendsChain(p, messages', i)
      {
        if i < |messages| {
          assert ExtendsChain(p, messages, i);
          SameTurnsKeepLinks(p, messages, messages', i);
        }
      }
    }
  }

  lemma AppendKeepsCounted(s: Store, owner: string, key: string, text: string)
    requires Counted(s.attempt, s.messages) && DistinctKeys(s) && SendOutcome(s, owner, key, text).Receipt?
    ensures var s' := Sent(s, owner, key, text); Counted(s'.attempt, s'.messages) && DistinctKeys(s')
  {
    var s' := Sent(s, owner, key, text);
    SameBytes(s.messages, s'.messages, |s.messages|);
  }

  /** An accepted send gets the next number; a declined one is remembered apart. */
  lemma SentKeepsValid(s: Store, owner: string, key: string, text: string)
    requires Valid(s)
    ensures Valid(Sent(s, owner, key, text))
  {
    if SendOutcome(s, owner, key, text).Receipt? {
      var m := NewMessage(s, owner, key, text);
      OpenIsKnown(s);
      AppendKeepsOrdered(s.messages, m);
      AppendKeepsChained(s.attempt, s.messages, m);
      AppendKeepsCounted(s, owner, key, text);
    }
  }

  /** The waiting message that a claim finds is the one at the turnstile. */
  lemma ClaimTakesTurn(s: Store)
    requires Pointed(s.attempt, s.messages) && Claim(s).Some?
    ensures WaitingFrom(s.messages, 0) == Turnstile(s.messages) < |s.messages|
  {
    assert !Done(s.messages[WaitingFrom(s.messages, 0)].status);
  }

  lemma ClaimKeepsValid(s: Store)
    requires Valid(s) && Claim(s).Some? && s.attempt.primary.Some?
    ensures Valid(Claim(s).value)
  {
    var t := Turnstile(s.messages);
    ClaimTakesTurn(s);
    var status := Claimed(s.messages[t].status.body);
    OpenIsKnown(s);
    AtTurnMoves(s.messages, status);
    AtTurnKeepsOrdered(s.messages, status);
    AtTurnKeepsChained(s.attempt, s.messages, status);
    SameContentCounts(s, Claim(s).value);
  }

  lemma ActiveIsTurn(messages: seq<Message>, i: nat)
    requires i < |messages| && ActiveOf(messages) == Some(i + 1)
    ensures Turnstile(messages) == i
  {
  }

  lemma AnnounceKeepsValid(s: Store, i: nat, rpc: nat, prompt: string)
    requires Valid(s) && Announce(s, i, rpc, prompt).Some?
    ensures Valid(Announce(s, i, rpc, prompt).value)
  {
    var status := Inflight(rpc, prompt);
    ActiveIsTurn(s.messages, i);
    OpenIsKnown(s);
    AtTurnMoves(s.messages, status);
    AtTurnKeepsOrdered(s.messages, status);
    AtTurnKeepsChained(s.attempt, s.messages, status);
    SameContentCounts(s, Announce(s, i, rpc, prompt).value);
  }

  lemma DeliverKeepsValid(s: Store, i: nat)
    requires Valid(s) && Deliver(s, i).Some?
    ensures Valid(Deliver(s, i).value)
  {
    var s' := Deliver(s, i).value;
    var status := s'.messages[i].status;
    ActiveIsTurn(s.messages, i);
    OpenIsKnown(s);
    AtTurnMoves(s.messages, status);
    AtTurnKeepsOrdered(s.messages, status);
    AtTurnExtendsChain(s.attempt, s.messages, status, s'.attempt);
    SameContentCounts(s, s');
  }

  /** Changing messages that have no turn, and get none, leaves the chain as it is. */
  lemma SameTurnsKeepChained(a: Attempt, before: seq<Message>, after: seq<Message>)
    requires Chained(a, before) && SameContent(before, after) && SameTurns(before, after, |before|)
    requires forall i :: 0 <= i < |before| && after[i].status != before[i].status ==>
      TurnOf(before[i].status).None? && (Active(after[i].status) ==> a.primary.Some?)
    ensures Chained(a, after)
  {
    if a.primary.Some? {
      var p := a.primary.value;
      SameTurnsSameChain(p, before, after, |before|);
      forall i | 0 <= i < |after|
        ensures ExtendsChain(p, after, i)
      {
        assert ExtendsChain(p, before, i);
        SameTurnsKeepLinks(p, before, after, i);
      }
    }
  }

  lemma SameContentNumbered(a: seq<Message>, b: seq<Message>)
    requires Numbered(a) && SameContent(a, b)
    requires forall i :: 0 <= i < |a| && (b[i].status.Accepted? || b[i].status.Claimed?) ==> b[i].status == a[i].status
    ensures Numbered(b)
  {
  }

  lemma BlockedTurns(messages: seq<Message>, i: nat, status: Status)
    requires Queued(messages) && i == Turnstile(messages) < |messages| && status.DeliveryUnknown?
    ensures var n, messages' := |messages|, BlockedTo(messages, i, status, |messages|);
      && SameContent(messages, messages') && Turnstile(messages') == n && messages'[i].status == status
      && forall j :: i < j < n ==> messages'[j].status.Refused?
  {
    TurnstileIs(BlockedTo(messages, i, status, |messages|), |messages|);
  }

  /** After an unknown delivery at the turnstile, everything before it is done and everything behind refused. */
  lemma BlockedKeepsOrdered(messages: seq<Message>, status: Status)
    requires Ordered(messages) && Turnstile(messages) < |messages| && status.DeliveryUnknown?
    requires forall i :: 0 <= i < |messages| ==> !messages[i].status.DeliveryUnknown?
    ensures var t, n := Turnstile(messages), |messages|;
      var messages' := BlockedTo(messages, t, status, n);
      && Ordered(messages') && Turnstile(messages') == n && SameContent(messages, messages')
      && UnknownTo(messages', n) == Some(t + 1)
  {
    var t, n := Turnstile(messages), |messages|;
    var messages' := BlockedTo(messages, t, status, n);
    BlockedTurns(messages, t, status);
    SameContentNumbered(messages, messages');
    UnknownToIs(messages', n, t);
  }

  lemma BlockedKeepsChained(a: Attempt, messages: seq<Message>, status: Status)
    requires Queued(messages) && Turnstile(messages) < |messages| && status.DeliveryUnknown?
    requires Chained(a, AtTurn(messages, status))
    ensures Chained(a, BlockedTo(messages, Turnstile(messages), status, |messages|))
  {
    BlockedTurns(messages, Turnstile(messages), status);
    SameTurnsKeepChained(a, AtTurn(messages, status), BlockedTo(messages, Turnstile(messages), status, |messages|));
  }

  lemma LoseKeepsChained(s: Store, i: nat, reason: Reason)
    requires Chained(s.attempt, s.messages) && Queued(s.messages) && Numbered(s.messages)
    requires Turnstile(s.messages) == i && Lose(s, i, reason).Some?
    ensures Chained(Lose(s, i, reason).value.attempt, Lose(s, i, reason).value.messages)
  {
    var s' := Lose(s, i, reason).value;
    var status := s'.messages[i].status;
    AtTurnExtendsChain(s.attempt, s.messages, status, s'.attempt);
    BlockedKeepsChained(s'.attempt, s.messages, status);
  }

  lemma LoseKeepsValid(s: Store, i: nat, reason: Reason)
    requires Valid(s) && Lose(s, i, reason).Some?
    ensures Valid(Lose(s, i, reason).value)
  {
    var s' := Lose(s, i, reason).value;
    ActiveIsTurn(s.messages, i);
    OpenIsKnown(s);
    BlockedKeepsOrdered(s.messages, s'.messages[i].status);
    LoseKeepsChained(s, i, reason);
    SameContentCounts(s, s');
  }

  lemma RejectKeepsValid(s: Store, i: nat, reason: Reason)
    requires Valid(s) && Reject(s, i, reason).Some? && i == Turnstile(s.messages)
    ensures Valid(Reject(s, i, reason).value)
  {
    var status := Refused(reason);
    OpenIsKnown(s);
    AtTurnMoves(s.messages, status);
    AtTurnKeepsOrdered(s.messages, status);
    AtTurnKeepsChained(s.attempt, s.messages, status);
    SameContentCounts(s, Reject(s, i, reason).value);
  }

  lemma TryCloseKeepsValid(s: Store, reason: Reason, recovery: bool)
    requires Valid(s) && TryClose(s, reason, recovery).Some?
    ensures Valid(TryClose(s, reason, recovery).value)
  {
    assert Unfinished(s.messages) || Turnstile(s.messages) == |s.messages|;
  }

  lemma RejectedTurns(messages: seq<Message>, k: nat, reason: Reason)
    requires Queued(messages) && k <= |messages|
    requires Turnstile(messages) < |messages| ==> !messages[Turnstile(messages)].status.Inflight?
    ensures var messages', t := RefusedTo(messages, k, reason), Turnstile(messages);
      SameContent(messages, messages') && Queued(messages') && Turnstile(messages') == (if k <= t then t else k)
  {
    var messages', t := RefusedTo(messages, k, reason), Turnstile(messages);
    TurnstileIs(messages', if k <= t then t else k);
  }

  lemma RejectedKeepsOrdered(messages: seq<Message>, k: nat, reason: Reason)
    requires Ordered(messages) && k <= |messages|
    requires Turnstile(messages) < |messages| ==> !messages[Turnstile(messages)].status.Inflight?
    ensures Ordered(RefusedTo(messages, k, reason))
  {
    RejectedTurns(messages, k, reason);
    SameContentNumbered(messages, RefusedTo(messages, k, reason));
  }

  lemma {:induction false} SameUnknown(a: seq<Message>, b: seq<Message>, k: nat)
    requires k <= |a| && k <= |b|
    requires forall i :: 0 <= i < k ==> (a[i].status.DeliveryUnknown? <==> b[i].status.DeliveryUnknown?)
    ensures UnknownTo(a, k) == UnknownTo(b, k)
  {
    if k > 0 {
      SameUnknown(a, b, k - 1);
    }
  }

  lemma RejectedKeepsPointed(s: Store, k: nat, reason: Reason)
    requires Pointed(s.attempt, s.messages) && Queued(s.messages) && k <= |s.messages|
    requires Turnstile(s.messages) < |s.messages| ==> !s.messages[Turnstile(s.messages)].status.Inflight?
    ensures Pointed(RejectedTo(s, k, reason).attempt, RejectedTo(s, k, reason).messages)
  {
    RejectedTurns(s.messages, k, reason);
    SameUnknown(s.messages, RefusedTo(s.messages, k, reason), |s.messages|);
  }

  lemma RejectedKeepsChained(a: Attempt, messages: seq<Message>, k: nat, reason: Reason)
    requires Chained(a, messages) && k <= |messages|
    ensures Chained(a, RefusedTo(messages, k, reason))
  {
    SameTurnsKeepChained(a, messages, RefusedTo(messages, k, reason));
  }

  lemma RejectedKeepsCounted(s: Store, k: nat, reason: Reason)
    requires Counted(s.attempt, s.messages) && DistinctKeys(s)
    ensures var s' := RejectedTo(s, k, reason); Counted(s'.attempt, s'.messages) && DistinctKeys(s')
  {
    SameContentCounts(s, RejectedTo(s, k, reason));
  }

  /** Turning down waiting messages one after the other keeps the order at every point. */
  lemma RejectedKeepsValid(s: Store, k: nat, reason: Reason)
    requires Valid(s) && k <= |s.messages|
    requires Turnstile(s.messages) < |s.messages| ==> !s.messages[Turnstile(s.messages)].status.Inflight?
    ensures Valid(RejectedTo(s, k, reason))
  {
    RejectedTurns(s.messages, k, reason);
    RejectedKeepsOrdered(s.messages, k, reason);
    RejectedKeepsPointed(s, k, reason);
    RejectedKeepsChained(s.attempt, s.messages, k, reason);
    RejectedKeepsCounted(s, k, reason);
  }

  lemma InterruptKeepsValid(s: Store, reason: Reason)
    requires Valid(s) && Interrupt(s, reason).Some?
    ensures Valid(Interrupt(s, reason).value)
  {
    var f, n := FirstInflight(s.messages, 0), |s.messages|;
    if s.attempt.lifecycle.Closed? {
    } else if f < n {
      LoseKeepsValid(s, f, reason);
      TryCloseKeepsValid(Lose(s, f, reason).value, reason, true);
    } else {
      RejectedKeepsValid(s, n, reason);
      TryCloseKeepsValid(RejectedTo(s, n, reason), reason, true);
    }
  }

  lemma FinishedCloses(s: Store, reason: Reason)
    requires Turnstile(s.messages) == |s.messages|
    ensures TryClose(s, reason, true).Some? && TryClose(s, reason, true).value.attempt.lifecycle.Closed?
  {
  }

  /** Settlement after a loss always closes the mailbox. */
  lemma InterruptCloses(s: Store, reason: Reason)
    requires Valid(s)
    ensures Interrupt(s, reason).Some? && Interrupt(s, reason).value.attempt.lifecycle.Closed?
  {
    var f, n := FirstInflight(s.messages, 0), |s.messages|;
    if s.attempt.lifecycle.Closed? {
    } else if f < n {
      InflightIsTurn(s, f);
      BlockedTurns(s.messages, f, DeliveryUnknown(TurnOfInflight(s, f, false), reason));
      FinishedCloses(Lose(s, f, reason).value, reason);
    } else {
      RejectedTurns(s.messages, n, reason);
      FinishedCloses(RejectedTo(s, n, reason), reason);
    }
  }

  lemma InflightIsTurn(s: Store, f: nat)
    requires Valid(s) && f < |s.messages| && s.messages[f].status.Inflight?
    ensures f == Turnstile(s.messages) && CanSettle(s, f)
  {
    assert Active(s.messages[f].status);
  }

  // ----- What the chain tells -----

  /**
   The chain names the whole conversation: if two lists end in the same chain, every turn of the one is
   the same turn of the other, so a missing or altered turn shows.
   */
  lemma {:induction false} ChainNamesEveryTurn(p: Chain, a: seq<Message>, k: nat, q: Chain, b: seq<Message>, m: nat, i: nat)
    requires Turns(p, a) && Turns(q, b) && Numbered(a) && Numbered(b) && k <= |a| && m <= |b|
    requires p.Link? && p.sequence == 0 && q.Link? && q.sequence == 0
    requires ChainTo(p, a, k) == ChainTo(q, b, m)
    ensures p == q
    ensures i < k && TurnOf(a[i].status).Some? ==> i < m && TurnOf(b[i].status) == TurnOf(a[i].status)
    decreases k + m
  {
    if k > 0 && TurnOf(a[k - 1].status).None? {
      ChainNamesEveryTurn(p, a, k - 1, q, b, m, i);
    } else if m > 0 && TurnOf(b[m - 1].status).None? {
      ChainNamesEveryTurn(p, a, k, q, b, m - 1, i);
    } else {
      assert k > 0 ==> ExtendsChain(p, a, k - 1);
      assert m > 0 ==> ExtendsChain(q, b, m - 1);
      if k > 0 {
        ChainNamesEveryTurn(p, a, k - 1, q, b, m - 1, i);
      }
    }
  }
}
