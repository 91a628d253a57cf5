/**
 Recovery of any records at all, not only of what an interrupted operation leaves: which defects it refuses,
 and what it makes of each field otherwise.
 */
module MailboxRepair {
  import opened Wrappers
  import opened Mailbox
  import opened MailboxOrder
  import opened MailboxCrash

  /** A message that was handed to the pump and has no outcome. */
  predicate InHand(m: Message) {
    m.status.Claimed? || m.status.Inflight?
  }

  predicate Waits(m: Message) {
    m.status.Accepted? || m.status.Claimed?
  }

  /** The link of the chain that a message with a completed turn holds. */
  function LinkOf(m: Message): Option<Chain> {
    if m.status.Delivered? || m.status.DeliveryUnknown? then Some(m.status.turn) else None
  }

  /** `turn` is the last completed one before position `k`: the primary turn, or that of a message. */
  predicate LastBefore(primary: Chain, messages: seq<Message>, k: nat, last: nat, turn: Chain)
    requires k <= |messages|
  {
    && last <= k && (forall j :: last <= j < k ==> LinkOf(messages[j]).None?)
    && (if last == 0 then turn == primary else LinkOf(messages[last - 1]) == Some(turn))
  }

  /** Message `i` holds a turn that does not extend the one before it with the message's own number, text and outcome. */
  ghost predicate BrokenLink(primary: Chain, messages: seq<Message>, i: nat)
    requires i < |messages|
  {
    var m := messages[i];
    LinkOf(m).Some?
    && !exists last, previous, prompt, rpc :: LastBefore(primary, messages, i, last, previous)
         && LinkOf(m).value == Link(previous, m.sequence, m.content, prompt, m.status.Delivered?, Some(rpc))
  }

  /** Everything that makes recovery refuse the records. */
  ghost predicate Defective(s: Store) {
    var a, messages, n := s.attempt, s.messages, |s.messages|;
    || n > 32 || BytesTo(messages, n) > 262144
    || (exists i :: 0 <= i < n && (messages[i].sequence != i + 1 || messages[i].bytes < 1))
    || a.acceptedCount > n || a.acceptedBytes != BytesTo(messages, a.acceptedCount)
    || (a.active.Some? && (a.active.value == 0 || a.active.value > n))
    || (exists i, j :: 0 <= i < j < n && InHand(messages[i]) && InHand(messages[j]))
    || (exists i, j :: 0 <= i < j < n && messages[i].status.DeliveryUnknown? && LinkOf(messages[j]).Some?)
    || (a.primary.None? && (a.last.Some? || exists i :: 0 <= i < n && LinkOf(messages[i]).Some?))
    || (a.primary.Some? && a.last.None?)
    || (a.primary.Some? && (a.primary.value != Link(Genesis(a.binding), 0, ContentOf(a.primary.value), PromptOf(a.primary.value), true, None)
                            || exists i :: 0 <= i < n && BrokenLink(a.primary.value, messages, i)))
    || (a.primary.Some? && a.last == Some(0) && a.chain != a.primary.value)
    || (a.last.Some? && a.last.value > 0 && (a.last.value > n || LinkOf(messages[a.last.value - 1]) != Some(a.chain)))
  }

  function ContentOf(turn: Chain): string {
    if turn.Link? then turn.content else ""
  }

  function PromptOf(turn: Chain): string {
    if turn.Link? then turn.prompt else ""
  }

  /** What becomes of message `j`, when `unknown` is the one that ends the turns. */
  function Mended(s: Store, unknown: Option<nat>, j: nat): Status
    requires j < |s.messages|
  {
    var m := s.messages[j];
    if !Waits(m) then m.status
    else if unknown.Some? && j > unknown.value then Refused(BlockedByPriorUnknown)
    else if s.attempt.lifecycle == Closed then Refused(ScrubbedOnClose)
    else m.status
  }

  /** The records after recovery, field by field. */
  ghost predicate Repairs(s: Store, r: Store, unknown: Option<nat>)
    requires unknown.Some? ==> unknown.value < |s.messages| && s.messages[unknown.value].status.DeliveryUnknown?
  {
    var a, b, n := s.attempt, r.attempt, |s.messages|;
    && r.turnedAway == s.turnedAway && b.binding == a.binding && b.primary == a.primary
    && b.acceptedCount == n && b.acceptedBytes == BytesTo(s.messages, n)
    && (if a.primary.None? then b.chain == a.chain && b.last == a.last
        else b.last.Some? && LastBefore(a.primary.value, s.messages, n, b.last.value, b.chain))
    && |r.messages| == n && (forall j :: 0 <= j < n ==> r.messages[j] == s.messages[j].(status := Mended(s, unknown, j)))
    && (if unknown.Some? then
          && b.unknown == Some(unknown.value + 1) && b.active == None
          && b.lifecycle == (if a.lifecycle == Closed then Closed else Closing)
          && b.closeReason == (if a.closeReason.Some? then a.closeReason else Some(s.messages[unknown.value].status.reason))
        else
          && b.unknown == a.unknown && b.lifecycle == a.lifecycle && b.closeReason == a.closeReason
          && (b.active.Some? ==> 0 < b.active.value <= n && InHand(s.messages[b.active.value - 1]))
          && (b.active.None? ==> forall j :: 0 <= j < n ==> !InHand(s.messages[j])))
  }

  // ----- Refusals -----

  lemma LinkIsTurn(m: Message)
    ensures LinkOf(m) == TurnOf(m.status) && (InHand(m) <==> Active(m.status))
  {
  }

  /** The last turn and the end of the chain before position `k`. */
  lemma {:induction false} LastBeforeIs(primary: Chain, messages: seq<Message>, k: nat, last: nat, turn: Chain)
    requires k <= |messages|
    ensures LastBefore(primary, messages, k, last, turn) <==> last == LastTo(messages, k) && turn == ChainTo(primary, messages, k)
  {
    if k > 0 {
      LinkIsTurn(messages[k - 1]);
      if TurnOf(messages[k - 1].status).None? {
        LastBeforeIs(primary, messages, k - 1, last, turn);
      }
    }
  }

  lemma BrokenLinkIs(primary: Chain, messages: seq<Message>, i: nat)
    requires i < |messages|
    ensures BrokenLink(primary, messages, i) <==> !ExtendsChain(primary, messages, i)
  {
    var m := messages[i];
    LinkIsTurn(m);
    var last, previous := LastTo(messages, i), ChainTo(primary, messages, i);
    LastBeforeIs(primary, messages, i, last, previous);
    forall l, p
      ensures LastBefore(primary, messages, i, l, p) <==> l == last && p == previous
    {
      LastBeforeIs(primary, messages, i, l, p);
    }
    if LinkOf(m).Some? && LinkOf(m).value.Link? && LinkOf(m).value.rpc.Some? {
      var turn := LinkOf(m).value;
      assert turn == Link(turn.previous, turn.sequence, turn.content, turn.prompt, turn.delivered, Some(turn.rpc.value));
    }
  }

  lemma PrimaryIs(turn: Chain, binding: nat)
    ensures IsPrimary(turn, binding) <==> turn == Link(Genesis(binding), 0, ContentOf(turn), PromptOf(turn), true, None)
  {
  }

  lemma InHandIsActive(messages: seq<Message>)
    ensures OneActive(messages) <==> !exists i, j :: 0 <= i < j < |messages| && InHand(messages[i]) && InHand(messages[j])
    ensures UnknownEndsTurns(messages) <==>
      !exists i, j :: 0 <= i < j < |messages| && messages[i].status.DeliveryUnknown? && LinkOf(messages[j]).Some?
  {
    forall m: Message
      ensures LinkOf(m) == TurnOf(m.status) && (InHand(m) <==> Active(m.status))
    {
      LinkIsTurn(m);
    }
  }

  /** The defects of the chain are those that the links do not allow. */
  lemma ChainDefects(a: Attempt, messages: seq<Message>)
    ensures ChainLags(a, messages) <==>
      && (a.primary.None? ==> a.last.None? && !exists i :: 0 <= i < |messages| && LinkOf(messages[i]).Some?)
      && (a.primary.Some? ==>
            && a.primary.value == Link(Genesis(a.binding), 0, ContentOf(a.primary.value), PromptOf(a.primary.value), true, None)
            && (!exists i :: 0 <= i < |messages| && BrokenLink(a.primary.value, messages, i))
            && a.last.Some? && a.last.value <= |messages|
            && (if a.last.value == 0 then a.chain == a.primary.value else LinkOf(messages[a.last.value - 1]) == Some(a.chain)))
  {
    forall m: Message
      ensures LinkOf(m) == TurnOf(m.status)
    {
      LinkIsTurn(m);
    }
    if a.primary.Some? {
      PrimaryIs(a.primary.value, a.binding);
      forall i | 0 <= i < |messages|
        ensures BrokenLink(a.primary.value, messages, i) <==> !ExtendsChain(a.primary.value, messages, i)
      {
        BrokenLinkIs(a.primary.value, messages, i);
      }
    }
  }

  /** Recovery refuses the records exactly for one of these defects. */
  lemma RefusesExactlyDefects(s: Store)
    ensures Recover(s).None? <==> Defective(s)
  {
    InHandIsActive(s.messages);
    ChainDefects(s.attempt, s.messages);
  }

  // ----- Repairs -----

  lemma MendsEachMessage(s: Store, j: nat)
    requires Mendable(s) && j < |s.messages|
    ensures var u := UnknownTo(s.messages, |s.messages|);
      |Repaired(s).messages| == |s.messages|
      && Repaired(s).messages[j]
         == s.messages[j].(status := Mended(s, if u.Some? then Some((u.value - 1) as nat) else None, j))
  {
  }

  lemma UnknownIsOne(messages: seq<Message>, i: nat)
    requires UnknownEndsTurns(messages) && i < |messages| && messages[i].status.DeliveryUnknown?
    ensures UnknownTo(messages, |messages|) == Some(i + 1)
  {
    assert forall j :: 0 <= j < |messages| && messages[j].status.DeliveryUnknown? ==> TurnOf(messages[j].status).Some?;
  }

  /** Otherwise every field is what the messages tell; `unknown` is the message whose delivery is unknown, if there is one. */
  lemma RecoverRepairs(s: Store, unknown: Option<nat>)
    requires Recover(s).Some?
    requires unknown.Some? ==> unknown.value < |s.messages| && s.messages[unknown.value].status.DeliveryUnknown?
    requires unknown.None? ==> forall i :: 0 <= i < |s.messages| ==> !s.messages[i].status.DeliveryUnknown?
    ensures Repairs(s, Recover(s).value, unknown)
  {
    var n := |s.messages|;
    if unknown.Some? {
      UnknownIsOne(s.messages, unknown.value);
    }
    forall j | 0 <= j < n
      ensures Repaired(s).messages[j] == s.messages[j].(status := Mended(s, unknown, j))
    {
      MendsEachMessage(s, j);
    }
    if s.attempt.primary.Some? {
      LastBeforeIs(s.attempt.primary.value, s.messages, n, LastTo(s.messages, n), ChainTo(s.attempt.primary.value, s.messages, n));
    }
  }
}
