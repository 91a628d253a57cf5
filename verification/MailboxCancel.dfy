/** Cancellation: what may still go out, and what cannot. */
module MailboxCancel {
  import opened Wrappers
  import opened Texts
  import opened Mailbox
  import opened MailboxOrder
  import opened MailboxCrash
  import opened MailboxSystem
  import opened MailboxSafety
  import opened MailboxRuns
  import opened MailboxTheorems

  /** The prompt that the pump has announced and not yet dispatched, if any. */
  function Announced(pump: Pump): seq<Prompt> {
    match pump
    case Ready(i, rpc, text) => [Prompt(i + 1, rpc, text)]
    case _ => []
  }

  /** Nothing is announced any more: what goes out is what was announced. */
  lemma CancelledStep(s: System, step: Step)
    requires s.cancelled
    ensures var s' := Exec(s, step);
      && s'.cancelled
      && (|| (s'.sent == s.sent && (Announced(s'.pump) == Announced(s.pump) || Announced(s'.pump) == []))
          || (s'.sent == s.sent + Announced(s.pump) && Announced(s'.pump) == []))
  {
  }

  /** After a cancellation a run sends at most the one prompt that was announced before it. */
  lemma {:induction false} AfterCancellation(s: System, steps: seq<Step>)
    requires s.cancelled
    ensures var s' := Run(s, steps); s'.sent == s.sent || s'.sent == s.sent + Announced(s.pump)
    decreases |steps|
  {
    if steps != [] {
      CancelledStep(s, steps[0]);
      AfterCancellation(Exec(s, steps[0]), steps[1..]);
    }
  }

  lemma RunFrom(s: System, step: Step, rest: seq<Step>)
    ensures Run(s, [step] + rest) == Run(Exec(s, step), rest)
  {
    assert ([step] + rest)[1..] == rest;
  }

  lemma RunOne(s: System, step: Step)
    ensures Run(s, [step]) == Exec(s, step)
  {
    RunFrom(s, step, []);
    assert [step] + [] == [step];
  }

  /**
   From the moment of a cancellation something can still go out exactly if the pump has announced a prompt
   and not yet dispatched it.
   */
  lemma SendsAfterCancellationExactlyWhenAnnounced(s: System)
    requires s.cancelled
    ensures (exists steps :: Run(s, steps).sent != s.sent) <==> s.pump.Ready?
  {
    if s.pump.Ready? {
      RunOne(s, Dispatch);
      assert Run(s, [Dispatch]).sent == s.sent + Announced(s.pump);
    } else {
      forall steps | true
        ensures Run(s, steps).sent == s.sent
      {
        AfterCancellation(s, steps);
      }
    }
  }

  lemma CancelledSendSettles(s: System, owner: string, key: string, text: string, i: nat)
    requires Valid(s.box) && s.cancelled && s.box.attempt.lifecycle.Open?
    requires i < |s.box.messages| && s.box.messages[i].status.Inflight?
    requires Usable(key, text) && ReplayOf(s.box, owner, key, text) != Some(Conflict)
    ensures var s' := Sending(s, owner, key, text);
      && s'.box.attempt.lifecycle.Closed? && s' == s.(box := s'.box)
      && i < |s'.box.messages| && s'.box.messages[i].status.DeliveryUnknown?
  {
    InterruptCloses(s.box, CANCELLED);
    InterruptSettles(s.box, CANCELLED);
  }

  lemma RunThree(s: System, a: Step, b: Step, c: Step)
    ensures Run(s, [a, b, c]) == Exec(Exec(Exec(s, a), b), c)
  {
    RunFrom(s, a, [b, c]);
    RunFrom(Exec(s, a), b, [c]);
    RunOne(Exec(Exec(s, a), b), c);
    assert [a] + [b, c] == [a, b, c] && [b] + [c] == [b, c];
  }

  lemma SeenThree(s: System, a: Step, b: Step, c: Step)
    requires Inv(s) && !a.Torn? && !b.Torn? && !c.Torn?
    ensures Seen(Run(s, [a, b, c])) == Do(Do(Do(Seen(s), a), b), c)
  {
    RunThree(s, a, b, c);
    SeenTwice(s, a, b);
    SeenDo(s, a);
    SeenDo(Exec(s, a), b);
    SeenDo(Exec(Exec(s, a), b), c);
  }

  /** The prompt of message `i` is announced, and a send with this key would be answered. */
  predicate Racing(s: System, i: nat, owner: string, key: string, text: string) {
    && s.box.attempt.lifecycle.Open? && s.pump.Ready? && s.pump.i == i
    && i < |s.box.messages| && s.box.messages[i].status.Inflight?
    && Usable(key, text) && ReplayOf(s.box, owner, key, text) != Some(Conflict)
  }

  lemma RaceIsOneSend(s: System, owner: string, key: string, text: string)
    requires s.pump.Ready?
    ensures var s2 := Sending(s.(cancelled := true), owner, key, text);
      s2.pump == s.pump && s2.sent == s.sent ==>
        Do(Do(Do(s, RequestCancel), SendMessage(owner, key, text)), Dispatch) ==
          s2.(pump := Waiting(s.pump.i, s.pump.rpc), sent := s.sent + Announced(s.pump))
  {
  }

  lemma RaceGoesOut(s: System, i: nat, owner: string, key: string, text: string)
    requires Valid(s.box) && Racing(s, i, owner, key, text)
    ensures var s' := Do(Do(Do(s, RequestCancel), SendMessage(owner, key, text)), Dispatch);
      && s'.sent == s.sent + Announced(s.pump) && s'.box.attempt.lifecycle.Closed?
      && i < |s'.box.messages| && s'.box.messages[i].status.DeliveryUnknown?
  {
    CancelledSendSettles(s.(cancelled := true), owner, key, text, i);
    RaceIsOneSend(s, owner, key, text);
  }

  /** The race: the announced message is settled by a sender that saw the cancellation, and still goes out. */
  lemma CancelledPromptGoesOut(s: System, i: nat, owner: string, key: string, text: string)
    requires Inv(s) && Racing(Seen(s), i, owner, key, text)
    ensures var s' := Seen(Run(s, [RequestCancel, SendMessage(owner, key, text), Dispatch]));
      && s'.sent == s.sent + Announced(s.pump) && s'.box.attempt.lifecycle.Closed?
      && i < |s'.box.messages| && s'.box.messages[i].status.DeliveryUnknown?
  {
    SeenThree(s, RequestCancel, SendMessage(owner, key, text), Dispatch);
    RaceGoesOut(Seen(s), i, owner, key, text);
  }

  // ----- The race is reached -----

  /** A mailbox that has just accepted its first message after the primary turn. */
  function FirstAccepted(binding: nat, lastRpc: nat, owner: string, key: string, text: string, content: string): System {
    var turn := Link(Genesis(binding), 0, content, content, true, None);
    var m := Message(1, owner, key, text, Utf8Bytes(text), Accepted(text));
    var a := Attempt(binding, Lifecycle.Open, 1, Utf8Bytes(text), turn, Some(turn), Some(0), None, None, None);
    System(Store(a, [m], map[]), Idle, false, lastRpc, [], map[])
  }

  lemma FirstThree(binding: nat, lastRpc: nat, owner: string, key: string, text: string, content: string)
    requires Usable(key, text)
    ensures Do(Do(Do(Initial(binding, lastRpc), OpenMailbox), SendMessage(owner, key, text)), CompletePrimary(content)) ==
      FirstAccepted(binding, lastRpc, owner, key, text, content)
  {
    BytesWithinUnits(text);
    var s1 := Do(Initial(binding, lastRpc), OpenMailbox);
    assert ReplayOf(s1.box, owner, key, text).None?;
    assert SendOutcome(s1.box, owner, key, text) == Receipt(1);
    var s2 := Do(s1, SendMessage(owner, key, text));
    assert s2.box.messages == [NewMessage(s1.box, owner, key, text)];
  }

  lemma LastTwo(binding: nat, lastRpc: nat, owner: string, key: string, text: string, content: string, prompt: string)
    requires Usable(key, text) && prompt != ""
    ensures var s := Do(Do(FirstAccepted(binding, lastRpc, owner, key, text, content), Next), Announcing(prompt));
      && Racing(s, 0, owner, key, text) && Announced(s.pump) == [Prompt(1, lastRpc + 1, prompt)] && s.sent == []
  {
    var s := FirstAccepted(binding, lastRpc, owner, key, text, content);
    assert WaitingFrom(s.box.messages, 0) == 0;
    var s1 := Do(s, Next);
    assert s1.pump == Holding(0, text) && s1.box.messages[0].status == Claimed(text);
    var s2 := Do(s1, Announcing(prompt));
    assert s2.box.messages == [s.box.messages[0].(status := Inflight(lastRpc + 1, prompt))];
    assert LookupTo(s2.box.messages, 0, key).None?;
  }

  /** From the start: open, one send, the primary turn, claim and announce, and the race is on. */
  lemma RaceIsReached(binding: nat, lastRpc: nat, owner: string, key: string, text: string, content: string, prompt: string)
    requires Usable(key, text) && prompt != ""
    ensures var steps := [OpenMailbox, SendMessage(owner, key, text), CompletePrimary(content)] + [Next, Announcing(prompt)];
      && Racing(Seen(Reached(binding, lastRpc, steps)), 0, owner, key, text)
      && Seen(Reached(binding, lastRpc, steps)).sent == []
  {
    var first, rest := [OpenMailbox, SendMessage(owner, key, text), CompletePrimary(content)], [Next, Announcing(prompt)];
    var s := Initial(binding, lastRpc);
    InitialIsInv(binding, lastRpc);
    FirstThree(binding, lastRpc, owner, key, text, content);
    LastTwo(binding, lastRpc, owner, key, text, content, prompt);
    SeenThree(s, OpenMailbox, SendMessage(owner, key, text), CompletePrimary(content));
    RunAppends(s, first, rest);
    RunKeepsInv(s, first);
    RunTwo(Run(s, first), Next, Announcing(prompt));
    SeenTwice(Run(s, first), Next, Announcing(prompt));
    PreparedIsValid(binding);
    RecoverIsIdle(Prepared(binding));
  }

  lemma RunTwo(s: System, a: Step, b: Step)
    ensures Run(s, [a, b]) == Exec(Exec(s, a), b)
  {
    RunFrom(s, a, [b]);
    RunOne(Exec(s, a), b);
    assert [a] + [b] == [a, b];
  }

  lemma {:induction false} RunAppends(s: System, steps: seq<Step>, more: seq<Step>)
    ensures Run(s, steps + more) == Run(Run(s, steps), more)
    decreases |steps|
  {
    if steps == [] {
      assert steps + more == more;
    } else {
      assert (steps + more)[1..] == steps[1..] + more;
      RunAppends(Exec(s, steps[0]), steps[1..], more);
    }
  }
}
