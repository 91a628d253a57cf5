/** The promises of the mailbox, over every run and from every reachable state. */
module MailboxTheorems {
  import opened Wrappers
  import opened Texts
  import opened Mailbox
  import opened MailboxOrder
  import opened MailboxCrash
  import opened MailboxSystem
  import opened MailboxSafety
  import opened MailboxRuns
  import A = AcpClient

  /** The state after a run, as the next operation sees it. */
  ghost function After(binding: nat, lastRpc: nat, steps: seq<Step>): (s: System)
    ensures Valid(s.box) && Tied(s)
  {
    Seen(Reached(binding, lastRpc, steps))
  }

  // ----- Dispatch -----

  /**
   Over every run the prompts on the wire follow the order of the messages: each message goes out at
   most once, under an id that no other prompt has, with exactly the prompt that its record shows.
   */
  lemma DispatchedAtMostOnceInOrder(binding: nat, lastRpc: nat, steps: seq<Step>)
    ensures var s := After(binding, lastRpc, steps);
      && (forall k :: 0 <= k < |s.sent| ==>
            && 1 <= s.sent[k].sequence <= |s.box.messages|
            && RecordedAs(s.box.messages[s.sent[k].sequence - 1], s.sent[k].rpc, s.sent[k].text))
      && (forall j, k :: 0 <= j < k < |s.sent| ==>
            s.sent[j].sequence < s.sent[k].sequence && s.sent[j].rpc < s.sent[k].rpc)
  {
    SentInOrder(After(binding, lastRpc, steps));
  }

  lemma SentInOrder(s: System)
    requires Tied(s)
    ensures forall k :: 0 <= k < |s.sent| ==>
      && 1 <= s.sent[k].sequence <= |s.box.messages|
      && RecordedAs(s.box.messages[s.sent[k].sequence - 1], s.sent[k].rpc, s.sent[k].text)
    ensures forall j, k :: 0 <= j < k < |s.sent| ==>
      s.sent[j].sequence < s.sent[k].sequence && s.sent[j].rpc < s.sent[k].rpc
  {
  }

  /** The response to prompt `rpc` that counts as a success, with one of three stop reasons. */
  predicate Succeeds(line: A.Line, rpc: nat) {
    exists reason :: reason in {A.EndTurn, A.MaxTokens, A.MaxTurnRequests}
      && line == A.Message(A.Frame(A.V2, Some(A.Number(rpc)), A.Absent, None, Some(A.Stopped(reason, false)), false, false))
  }

  /** A batch in which every line may pass and exactly one line responds to this id, with a success. */
  ghost predicate CleanSuccess(batch: seq<A.Line>, rpc: nat) {
    && (forall k :: 0 <= k < |batch| ==> A.Passes(batch, k, map[rpc := A.Prompt]))
    && exists k :: 0 <= k < |batch| && Succeeds(batch[k], rpc)
         && forall j :: 0 <= j < |batch| && A.Responds(batch[j], rpc) ==> j == k
  }

  lemma PassingResponsesAreOne(batch: seq<A.Line>, rpc: nat, i: nat, j: nat)
    requires i < |batch| && j < |batch| && A.Responds(batch[i], rpc) && A.Responds(batch[j], rpc)
    requires A.Passes(batch, i, map[rpc := A.Prompt]) && A.Passes(batch, j, map[rpc := A.Prompt])
    ensures i == j
  {
  }

  lemma SuccessIsClean(line: A.Line, rpc: nat, result: A.Result)
    ensures A.Clean(line, rpc, A.Prompt, result) && Accepts(A.Resolved(result)) ==> Succeeds(line, rpc) && A.Responds(line, rpc)
    ensures Succeeds(line, rpc) ==>
      && line.Message? && line.frame.result.Some? && Accepts(A.Resolved(line.frame.result.value))
      && A.Clean(line, rpc, A.Prompt, line.frame.result.value)
  {
  }

  lemma AcknowledgedIsClean(batch: seq<A.Line>, rpc: nat)
    ensures Acknowledges(batch, rpc) <==> CleanSuccess(batch, rpc)
  {
    var pending := map[rpc := A.Prompt];
    if Acknowledges(batch, rpc) {
      var result := A.Verdict(batch, pending, rpc).value.result;
      A.ResolvesExactlyOnCleanAnswer(batch, pending, rpc, result);
      var k :| 0 <= k < |batch| && A.Clean(batch[k], rpc, A.Prompt, result);
      SuccessIsClean(batch[k], rpc, result);
      forall j | 0 <= j < |batch| && A.Responds(batch[j], rpc)
        ensures j == k
      {
        PassingResponsesAreOne(batch, rpc, j, k);
      }
    }
    if CleanSuccess(batch, rpc) {
      var k :| 0 <= k < |batch| && Succeeds(batch[k], rpc);
      SuccessIsClean(batch[k], rpc, A.OtherResult(""));
      A.ResolvesExactlyOnCleanAnswer(batch, pending, rpc, batch[k].frame.result.value);
    }
  }

  /**
   A message counts as delivered only if its prompt went out, and one clean stdout batch held the only
   answer with exactly its numeric id, a successful one.
   */
  lemma DeliveredWasAcknowledged(binding: nat, lastRpc: nat, steps: seq<Step>, i: nat)
    requires i < |After(binding, lastRpc, steps).box.messages|
    requires After(binding, lastRpc, steps).box.messages[i].status.Delivered?
    ensures var s := After(binding, lastRpc, steps);
      var turn := s.box.messages[i].status.turn;
      && turn.Link? && turn.rpc.Some? && turn.delivered && turn.content == s.box.messages[i].content
      && Prompt(i + 1, turn.rpc.value, turn.prompt) in s.sent
      && i in s.proofs && CleanSuccess(s.proofs[i], turn.rpc.value)
  {
    var s := After(binding, lastRpc, steps);
    var turn := s.box.messages[i].status.turn;
    assert ProvenAt(turn, i, s.proofs, s.sent);
    AcknowledgedIsClean(s.proofs[i], turn.rpc.value);
    var k :| 0 <= k < |s.sent| && s.sent[k].sequence == i + 1 && s.sent[k].rpc == turn.rpc.value;
    assert RecordedAs(s.box.messages[i], s.sent[k].rpc, s.sent[k].text);
    assert s.sent[k] == Prompt(i + 1, turn.rpc.value, turn.prompt);
    DeliveredTurnIsItsOwn(s.box, i);
  }

  lemma DeliveredTurnIsItsOwn(s: Store, i: nat)
    requires Valid(s) && i < |s.messages| && s.messages[i].status.Delivered?
    ensures var turn := s.messages[i].status.turn; turn.Link? && turn.delivered && turn.content == s.messages[i].content
  {
    assert ExtendsChain(s.attempt.primary.value, s.messages, i);
  }

  // ----- Acceptance -----

  ghost predicate Fresh(s: Store, key: string) {
    (forall i :: 0 <= i < |s.messages| ==> s.messages[i].key != key) && key !in s.turnedAway
  }

  /** The contents of the first `k` messages, one after the other. */
  function ContentsTo(messages: seq<Message>, k: nat): string
    requires k <= |messages|
  {
    if k == 0 then "" else ContentsTo(messages, k - 1) + messages[k - 1].content
  }

  /** All the contents ever accepted. */
  function Contents(messages: seq<Message>): string {
    ContentsTo(messages, |messages|)
  }

  lemma {:induction false} BytesAreEncoded(messages: seq<Message>, k: nat)
    requires Numbered(messages) && k <= |messages|
    ensures BytesTo(messages, k) == |Encode(ContentsTo(messages, k))|
  {
    if k > 0 {
      BytesAreEncoded(messages, k - 1);
      EncodeAppends(ContentsTo(messages, k - 1), messages[k - 1].content);
      Utf8BytesCountsTheEncoding(messages[k - 1].content);
    }
  }

  lemma RoomIsEncoded(messages: seq<Message>, text: string)
    requires Numbered(messages)
    ensures TotalBytes(messages) + Utf8Bytes(text) == |Encode(Contents(messages) + text)|
  {
    BytesAreEncoded(messages, |messages|);
    EncodeAppends(Contents(messages), text);
    Utf8BytesCountsTheEncoding(text);
  }

  ghost predicate WellFormed(key: string, text: string) {
    8 <= CodeUnits(key) <= 256 && CodeUnits(text) <= 16000 && exists c :: c in text && c !in BLANKS
  }

  lemma UsableIsWellFormed(key: string, text: string)
    ensures Usable(key, text) <==> WellFormed(key, text)
  {
    forall c
      ensures White(c) <==> c in BLANKS
    {
      WhiteIsBlank(c);
    }
  }

  /** When a send is accepted: the record is open, the key is new and the cumulative limits leave room. */
  ghost predicate Acceptable(s: Store, key: string, text: string) {
    && WellFormed(key, text) && s.attempt.lifecycle.Open? && Fresh(s, key)
    && |s.messages| < 32 && |Encode(Contents(s.messages) + text)| <= 262144
  }

  /** The message under the next number, as a send stores it. */
  function Stored(s: Store, owner: string, key: string, text: string): Message {
    Message(|s.messages| + 1, owner, key, text, |Encode(text)|, Accepted(text))
  }

  /** `result` is what a sender of `text` under `key` must hear from the record `s`. */
  ghost predicate Answers(s: Store, owner: string, key: string, text: string, result: SendResult) {
    match result
    case Malformed => !WellFormed(key, text)
    case Replay(n) =>
      && WellFormed(key, text)
      && ((exists i :: 0 <= i < |s.messages| && i + 1 == n && s.messages[i].key == key && s.messages[i].owner == owner && s.messages[i].content == text)
          || (n == 0 && key in s.turnedAway && s.turnedAway[key].owner == owner && s.turnedAway[key].content == text))
    case Conflict =>
      && WellFormed(key, text) && !Fresh(s, key)
      && (forall i :: 0 <= i < |s.messages| && s.messages[i].key == key ==> s.messages[i].owner != owner || s.messages[i].content != text)
      && (key in s.turnedAway ==> s.turnedAway[key].owner != owner || s.turnedAway[key].content != text)
    case Unavailable => WellFormed(key, text) && Fresh(s, key) && !s.attempt.lifecycle.Open?
    case Declined(reason) =>
      && WellFormed(key, text) && Fresh(s, key) && s.attempt.lifecycle.Open?
      && reason == (if |s.messages| == 32 then MessageLimit else ByteLimit)
      && (|s.messages| == 32 || |Encode(Contents(s.messages) + text)| > 262144)
    case Receipt(n) => Acceptable(s, key, text) && n == |s.messages| + 1
  }

  lemma KnownKeyAnswers(s: Store, owner: string, key: string, text: string, result: SendResult)
    requires Numbered(s.messages) && DistinctKeys(s) && WellFormed(key, text) && !Fresh(s, key)
    ensures Answers(s, owner, key, text, result) <==> ReplayOf(s, owner, key, text) == Some(result)
  {
    UsableIsWellFormed(key, text);
    var at := LookupTo(s.messages, |s.messages|, key);
    if at.Some? {
      assert forall i :: 0 <= i < |s.messages| && s.messages[i].key == key ==> i == at.value;
    }
  }

  /** Each answer of a send is given exactly when it must be, and never two of them. */
  lemma SendAnswers(s: Store, owner: string, key: string, text: string, result: SendResult)
    requires Numbered(s.messages) && DistinctKeys(s) && Counted(s.attempt, s.messages) && Phased(s.attempt, s.messages)
    ensures Answers(s, owner, key, text, result) <==> result == SendOutcome(s, owner, key, text)
  {
    RoomIsEncoded(s.messages, text);
    UsableIsWellFormed(key, text);
    if WellFormed(key, text) && !Fresh(s, key) {
      KnownKeyAnswers(s, owner, key, text, result);
    } else {
      assert Fresh(s, key) <==> ReplayOf(s, owner, key, text).None?;
    }
  }

  /** What a send does to the record: nothing but one more message, or one more key that was turned away. */
  lemma SendDecides(s: Store, owner: string, key: string, text: string)
    requires Numbered(s.messages) && Counted(s.attempt, s.messages) && Phased(s.attempt, s.messages)
    ensures SendOutcome(s, owner, key, text).Receipt? <==> Acceptable(s, key, text)
    ensures Sent(s, owner, key, text) ==
      if Acceptable(s, key, text) then
        s.(messages := s.messages + [Stored(s, owner, key, text)],
           attempt := s.attempt.(acceptedCount := |s.messages| + 1, acceptedBytes := |Encode(Contents(s.messages) + text)|))
      else if SendOutcome(s, owner, key, text).Declined? then
        s.(turnedAway := s.turnedAway[key := TurnedAway(owner, text, SendOutcome(s, owner, key, text).reason)])
      else s
  {
    assert Fresh(s, key) <==> ReplayOf(s, owner, key, text).None?;
    UsableIsWellFormed(key, text);
    RoomIsEncoded(s.messages, text);
    Utf8BytesCountsTheEncoding(text);
  }

  lemma InterruptAddsNothing(s: Store, reason: Reason)
    ensures Interrupt(s, reason).Some? ==> |Interrupt(s, reason).value.messages| == |s.messages|
  {
  }

  lemma SentIsStored(s: System, owner: string, key: string, text: string)
    requires !s.cancelled
    ensures Sending(s, owner, key, text).box.messages == Sent(s.box, owner, key, text).messages
  {
  }

  /** What a send makes of the messages `a`. */
  ghost predicate Takes(a: Store, b: Store, cancelled: bool, owner: string, key: string, text: string) {
    var n := |a.messages|;
    if cancelled then |b.messages| == n
    else if Acceptable(a, key, text) then
      b.messages == a.messages + [Stored(a, owner, key, text)]
    else b.messages == a.messages
  }

  lemma SendingDecides(s: System, owner: string, key: string, text: string)
    requires Numbered(s.box.messages) && Counted(s.box.attempt, s.box.messages) && Phased(s.box.attempt, s.box.messages)
    ensures Takes(s.box, Sending(s, owner, key, text).box, s.cancelled, owner, key, text)
  {
    if s.cancelled {
      InterruptAddsNothing(s.box, CANCELLED);
    } else {
      SentIsStored(s, owner, key, text);
    }
    SendDecides(s.box, owner, key, text);
  }

  /**
   From every reachable state, whatever else is under way, a send is accepted exactly when nobody has
   cancelled, the mailbox is open, the key is new and the limits leave room.  It then gets the next
   contiguous number and waits behind the others.  Every other send, also one that lost the race against
   the close, adds no message.
   */
  lemma SendGetsNextNumberOrNothing(s: System, owner: string, key: string, text: string)
    requires Inv(s)
    ensures Takes(Seen(s).box, Seen(Exec(s, SendMessage(owner, key, text))).box, s.cancelled, owner, key, text)
  {
    SeenDo(s, SendMessage(owner, key, text));
    SendingDecides(Seen(s), owner, key, text);
  }

  /** The cumulative limits hold in every reachable state, over the encoded contents of all messages ever accepted. */
  lemma LimitsHold(binding: nat, lastRpc: nat, steps: seq<Step>)
    ensures var s := After(binding, lastRpc, steps).box;
      && s.attempt.acceptedCount == |s.messages| <= 32
      && s.attempt.acceptedBytes == |Encode(Contents(s.messages))| <= 262144
  {
    var s := After(binding, lastRpc, steps).box;
    BytesAreEncoded(s.messages, |s.messages|);
  }

  // ----- Before the mailbox opens -----

  /** Nothing was ever accepted and no turn completed. */
  predicate Unopened(s: Store) {
    s.messages == [] && s.attempt.primary.None? && !s.attempt.lifecycle.Open?
  }

  lemma ApplyBeforeOpen(s: Store, op: Op)
    requires Unopened(s) && !op.OpenOp? && Apply(s, op).Some?
    ensures Unopened(Apply(s, op).value)
  {
  }

  lemma FinishesBeforeOpen(s: Store, op: Op, r: Store)
    requires Unopened(s) && !op.OpenOp? && Finishes(s, op, r)
    ensures Unopened(r)
  {
    match op
    case InterruptOp(_) =>
    case CloseOp(_, _) =>
    case _ => ApplyBeforeOpen(s, op);
  }

  lemma TornBeforeOpen(s: System, op: Op, left: Store)
    requires Valid(s.box) && Unopened(s.box)
    ensures Unopened(Seen(TornAt(s, op, left)).box)
  {
    if UnderWay(s, op) && Leaves(s.box, op, left) {
      CrashIsRecovered(s.box, op, left);
      FinishesBeforeOpen(s.box, op, Recover(left).value);
    } else {
      RecoverIsIdle(s.box);
    }
  }

  lemma {:induction false} RunBeforeOpen(s: System, steps: seq<Step>)
    requires Inv(s) && Unopened(Seen(s).box) && OpenMailbox !in steps
    ensures Unopened(Seen(Run(s, steps)).box)
    decreases |steps|
  {
    if steps != [] {
      var step, a := steps[0], Seen(s);
      if step.Torn? {
        TornBeforeOpen(a, step.op, step.left);
      } else {
        var op := DoApplies(a, step);
        if Do(a, step).box != a.box {
          ApplyBeforeOpen(a.box, op);
        }
        SeenDo(s, step);
      }
      ExecKeepsInv(s, step);
      RunBeforeOpen(Exec(s, step), steps[1..]);
    }
  }

  /** A mailbox that nobody opened accepts nothing and sends nothing, whatever else happens to it. */
  lemma NothingBeforeOpen(binding: nat, lastRpc: nat, steps: seq<Step>)
    requires OpenMailbox !in steps
    ensures After(binding, lastRpc, steps).box.messages == [] && After(binding, lastRpc, steps).sent == []
  {
    InitialIsInv(binding, lastRpc);
    PreparedIsValid(binding);
    RecoverIsIdle(Prepared(binding));
    RunBeforeOpen(Initial(binding, lastRpc), steps);
    PromptsAreOfMessages(After(binding, lastRpc, steps));
  }

  lemma PromptsAreOfMessages(s: System)
    requires Tied(s)
    ensures s.sent != [] ==> s.box.messages != []
  {
    SentInOrder(s);
    assert |s.sent| > 0 ==> 1 <= s.sent[0].sequence <= |s.box.messages|;
  }

  // ----- Growth -----

  predicate Follows(x: Message, y: Message) {
    && y == x.(status := y.status)
    && (Done(x.status) ==> y == x)
    && (x.status.Inflight? ==> !y.status.Accepted? && !y.status.Claimed?)
  }

  /** `b` came after `a`: messages and prompts only get more, and outcomes stay. */
  ghost predicate Later(a: System, b: System) {
    && |a.box.messages| <= |b.box.messages| && a.sent <= b.sent
    && forall i :: 0 <= i < |a.box.messages| ==> Follows(a.box.messages[i], b.box.messages[i])
  }

  lemma DoIsLater(s: System, step: Step)
    ensures Later(s, Do(s, step))
  {
    var op := DoApplies(s, step);
    if Do(s, step).box != s.box {
      ApplyMoves(s.box, op);
      MovesFollow(s.box.messages, Do(s, step).box.messages);
    }
    DoSends(s, step);
  }

  lemma MovesFollow(a: seq<Message>, b: seq<Message>)
    requires Moves(a, b)
    ensures forall i :: 0 <= i < |a| ==> Follows(a[i], b[i])
  {
    forall i | 0 <= i < |a|
      ensures Follows(a[i], b[i])
    {
      assert MovesTo(a[i], b[i]);
    }
  }

  lemma DoSends(s: System, step: Step)
    ensures s.sent <= Do(s, step).sent
    ensures Do(s, step).sent != s.sent ==> step.Dispatch? && s.pump.Ready? && Do(s, step).box == s.box
  {
  }

  lemma TornIsLater(s: System, op: Op, left: Store)
    requires Valid(s.box)
    ensures Later(s, Seen(TornAt(s, op, left)))
  {
    if UnderWay(s, op) && Leaves(s.box, op, left) {
      CrashIsRecovered(s.box, op, left);
      FinishesMoves(s.box, op, Recover(left).value);
      MovesFollow(s.box.messages, Recover(left).value.messages);
    } else {
      RecoverIsIdle(s.box);
    }
  }

  lemma ExecIsLater(s: System, step: Step)
    requires Inv(s)
    ensures Later(Seen(s), Seen(Exec(s, step)))
  {
    var a := Seen(s);
    if step.Torn? {
      TornIsLater(a, step.op, step.left);
    } else {
      DoIsLater(a, step);
      SeenDo(s, step);
    }
  }

  lemma LaterIsTransitive(a: System, b: System, c: System)
    requires Later(a, b) && Later(b, c)
    ensures Later(a, c)
  {
    forall i | 0 <= i < |a.box.messages|
      ensures Follows(a.box.messages[i], c.box.messages[i])
    {
      assert Follows(a.box.messages[i], b.box.messages[i]) && Follows(b.box.messages[i], c.box.messages[i]);
    }
  }

  /** An accepted message is never lost or changed; once announced it never waits again; an outcome is final. */
  lemma {:induction false} OutcomesAreFinal(s: System, steps: seq<Step>)
    requires Inv(s)
    ensures Later(Seen(s), Seen(Run(s, steps)))
    decreases |steps|
  {
    if steps != [] {
      var s' := Exec(s, steps[0]);
      ExecKeepsInv(s, steps[0]);
      ExecIsLater(s, steps[0]);
      OutcomesAreFinal(s', steps[1..]);
      LaterIsTransitive(Seen(s), Seen(s'), Seen(Run(s, steps)));
    }
  }

  // ----- Closing -----

  /** Every message has its outcome; at most one is unknown, and what follows it never went out. */
  predicate Settled(messages: seq<Message>) {
    && (forall i :: 0 <= i < |messages| ==> Done(messages[i].status))
    && (forall i, j :: 0 <= i < j < |messages| && messages[i].status.DeliveryUnknown? ==> messages[j].status.Refused?)
  }

  lemma ShutIsSettled(s: Store)
    requires Valid(s) && Shutting(s.attempt)
    ensures Settled(s.messages)
  {
  }

  lemma ClosedIsSettled(binding: nat, lastRpc: nat, steps: seq<Step>)
    ensures var s := After(binding, lastRpc, steps);
      Shutting(s.box.attempt) ==>
        && Settled(s.box.messages)
        && (forall k :: 0 <= k < |s.sent| ==> !s.box.messages[s.sent[k].sequence - 1].status.Refused?)
  {
    var s := After(binding, lastRpc, steps);
    if Shutting(s.box.attempt) {
      ShutIsSettled(s.box);
    }
    assert InSequence(s.sent, s.box.messages, s.lastRpc);
  }

  /** What stays of a mailbox that began to close. */
  ghost predicate SameRecord(a: Store, b: Store) {
    && Shutting(b.attempt) && b.messages == a.messages && b.turnedAway == a.turnedAway
    && b.attempt == a.attempt.(lifecycle := b.attempt.lifecycle)
    && (a.attempt.lifecycle.Closed? ==> b.attempt.lifecycle.Closed?)
  }

  lemma InterruptWhenShut(s: Store, reason: Reason)
    requires Shutting(s.attempt) && s.attempt.closeReason.Some? && Pointed(s.attempt, s.messages)
    requires Turnstile(s.messages) == |s.messages| && Interrupt(s, reason).Some?
    ensures SameRecord(s, Interrupt(s, reason).value)
  {
    NothingLeftToReject(s, |s.messages|, reason);
  }

  /** A mailbox that began to close has nothing that an operation could act on. */
  lemma ActWhenShut(s: Store, op: Op)
    requires Shutting(s.attempt) && s.attempt.closeReason.Some? && Apply(s, op).Some? && !op.InterruptOp?
    requires forall i :: 0 <= i < |s.messages| ==> Done(s.messages[i].status)
    ensures SameRecord(s, Apply(s, op).value)
  {
  }

  lemma ApplyWhenShut(s: Store, op: Op)
    requires Valid(s) && Shutting(s.attempt) && Apply(s, op).Some?
    ensures SameRecord(s, Apply(s, op).value)
  {
    ShutIsSettled(s);
    if op.InterruptOp? {
      InterruptWhenShut(s, op.reason);
    } else {
      ActWhenShut(s, op);
    }
  }

  lemma FinishesWhenShut(s: Store, op: Op, p: Store, r: Store)
    requires Valid(s) && Shutting(s.attempt) && Leaves(s, op, p) && Finishes(s, op, r)
    ensures SameRecord(s, r)
  {
    ShutIsSettled(s);
    if op.InterruptOp? {
      forall k | 0 <= k <= |s.messages|
        ensures RejectedTo(s, k, op.reason) == s
      {
        NothingLeftToReject(s, k, op.reason);
      }
    }
  }

  lemma DoWhenShut(s: System, step: Step)
    requires Valid(s.box) && Shutting(s.box.attempt)
    ensures SameRecord(s.box, Do(s, step).box)
  {
    var op := DoApplies(s, step);
    if Do(s, step).box != s.box {
      ApplyWhenShut(s.box, op);
    }
  }

  lemma ExecWhenShut(s: System, step: Step)
    requires Inv(s) && Shutting(Seen(s).box.attempt)
    ensures SameRecord(Seen(s).box, Seen(Exec(s, step)).box)
  {
    var a := Seen(s);
    if step.Torn? {
      TornWhenShut(a, step.op, step.left);
    } else {
      SeenDo(s, step);
      DoWhenShut(a, step);
    }
  }

  lemma TornWhenShut(s: System, op: Op, left: Store)
    requires Valid(s.box) && Shutting(s.box.attempt)
    ensures SameRecord(s.box, Seen(TornAt(s, op, left)).box)
  {
    if UnderWay(s, op) && Leaves(s.box, op, left) {
      CrashIsRecovered(s.box, op, left);
      FinishesWhenShut(s.box, op, left, Recover(left).value);
    } else {
      RecoverIsIdle(s.box);
    }
  }

  /** From the moment the mailbox closes nothing is accepted, settled or linked any more. */
  lemma {:induction false} NothingAfterClose(s: System, steps: seq<Step>)
    requires Inv(s) && Shutting(Seen(s).box.attempt)
    ensures SameRecord(Seen(s).box, Seen(Run(s, steps)).box)
    decreases |steps|
  {
    if steps != [] {
      ExecWhenShut(s, steps[0]);
      ExecKeepsInv(s, steps[0]);
      NothingAfterClose(Exec(s, steps[0]), steps[1..]);
    }
  }

  /**
   The first ambiguous delivery ends everything: from then on no run changes any message, and no prompt
   ever goes out for a message behind it.
   */
  lemma NothingAfterUnknown(s: System, steps: seq<Step>, u: nat)
    requires Inv(s) && u < |Seen(s).box.messages| && Seen(s).box.messages[u].status.DeliveryUnknown?
    ensures var s' := Seen(Run(s, steps));
      && s'.box.messages == Seen(s).box.messages && s'.box.attempt.chain == Seen(s).box.attempt.chain
      && (forall j :: u < j < |s'.box.messages| ==> s'.box.messages[j].status.Refused?)
      && (forall k :: 0 <= k < |s'.sent| ==> s'.sent[k].sequence <= u + 1)
  {
    var a, s' := Seen(s), Seen(Run(s, steps));
    assert Shutting(a.box.attempt);
    ShutIsSettled(a.box);
    NothingAfterClose(s, steps);
    RunKeepsInv(s, steps);
    NothingSentBehind(s'.sent, s'.box.messages, s'.lastRpc, u);
  }

  lemma NothingSentBehind(sent: seq<Prompt>, messages: seq<Message>, lastRpc: nat, u: nat)
    requires InSequence(sent, messages, lastRpc) && u < |messages|
    requires forall j :: u < j < |messages| ==> messages[j].status.Refused?
    ensures forall k :: 0 <= k < |sent| ==> sent[k].sequence <= u + 1
  {
    forall k | 0 <= k < |sent|
      ensures sent[k].sequence <= u + 1
    {
      assert RecordedAs(messages[sent[k].sequence - 1], sent[k].rpc, sent[k].text);
    }
  }

  lemma CrashThenRecover(s: System)
    ensures Run(s, [Crash, RecoverLost]) == Exec(Exec(s, Crash), RecoverLost)
  {
    assert [Crash, RecoverLost][1..] == [RecoverLost];
    assert Run(Exec(s, Crash), [RecoverLost]) == Run(Exec(Exec(s, Crash), RecoverLost), [RecoverLost][1..]);
  }

  /** What may have reached the provider becomes unknown, what provably did not is refused. */
  predicate SettlesTo(before: Status, after: Status) {
    match before
    case Inflight(_, _) => after.DeliveryUnknown?
    case Accepted(_) => after.Refused?
    case Claimed(_) => after.Refused?
    case _ => after == before
  }

  predicate AllSettle(a: seq<Message>, b: seq<Message>) {
    |a| == |b| && forall i :: 0 <= i < |a| ==> SettlesTo(a[i].status, b[i].status)
  }

  lemma LosingSettles(messages: seq<Message>, f: nat, status: Status)
    requires Queued(messages) && f == Turnstile(messages) < |messages| && messages[f].status.Inflight?
    requires status.DeliveryUnknown?
    ensures AllSettle(messages, BlockedTo(messages, f, status, |messages|))
  {
  }

  lemma RejectingSettles(messages: seq<Message>, reason: Reason)
    requires forall i :: 0 <= i < |messages| ==> !messages[i].status.Inflight?
    ensures AllSettle(messages, RefusedTo(messages, |messages|, reason))
  {
  }

  lemma InterruptedMessages(s: Store, reason: Reason)
    requires Interrupt(s, reason).Some?
    ensures var f, messages := FirstInflight(s.messages, 0), Interrupt(s, reason).value.messages;
      if s.attempt.lifecycle.Closed? then messages == s.messages
      else if f < |s.messages| then
        && CanSettle(s, f)
        && messages == BlockedTo(s.messages, f, DeliveryUnknown(TurnOfInflight(s, f, false), reason), |s.messages|)
      else messages == RefusedTo(s.messages, |s.messages|, reason)
  {
  }

  lemma DoneSettles(messages: seq<Message>)
    requires forall i :: 0 <= i < |messages| ==> Done(messages[i].status)
    ensures AllSettle(messages, messages)
  {
  }

  lemma InterruptSettles(s: Store, reason: Reason)
    requires Valid(s)
    ensures Interrupt(s, reason).Some? && AllSettle(s.messages, Interrupt(s, reason).value.messages)
  {
    InterruptCloses(s, reason);
    InterruptedMessages(s, reason);
    var f := FirstInflight(s.messages, 0);
    if s.attempt.lifecycle.Closed? {
      ShutIsSettled(s);
      DoneSettles(s.messages);
    } else if f < |s.messages| {
      InflightIsTurn(s, f);
      LosingSettles(s.messages, f, DeliveryUnknown(TurnOfInflight(s, f, false), reason));
    } else {
      RejectingSettles(s.messages, reason);
    }
  }

  lemma InterruptEnds(s: Store, reason: Reason)
    requires Valid(s)
    ensures Interrupt(s, reason).Some? && Settled(Interrupt(s, reason).value.messages)
  {
    InterruptCloses(s, reason);
    InterruptKeepsValid(s, reason);
    ShutIsSettled(Interrupt(s, reason).value);
  }

  lemma RecoverLostSettles(s: System)
    requires Valid(s.box) && s.pump.Gone?
    ensures Interrupt(s.box, LOST).Some? && Do(s, RecoverLost) == s.(box := Interrupt(s.box, LOST).value)
  {
    InterruptCloses(s.box, LOST);
  }

  lemma SeenTwice(s: System, first: Step, second: Step)
    requires Inv(s) && !first.Torn? && !second.Torn?
    ensures Seen(Exec(Exec(s, first), second)) == Do(Do(Seen(s), first), second)
  {
    SeenDo(s, first);
    SeenDo(Exec(s, first), second);
  }

  lemma SeenCrashThenRecover(s: System)
    requires Inv(s)
    ensures Seen(Run(s, [Crash, RecoverLost])) == Do(Seen(s).(pump := Gone), RecoverLost)
  {
    CrashThenRecover(s);
    SeenTwice(s, Crash, RecoverLost);
  }

  lemma CrashThenRecoverSettles(s: System)
    requires Inv(s)
    ensures Interrupt(Seen(s).box, LOST).Some?
    ensures Seen(Run(s, [Crash, RecoverLost])) == s.(box := Interrupt(Seen(s).box, LOST).value, pump := Gone)
  {
    SeenCrashThenRecover(s);
    RecoverLostSettles(Seen(s).(pump := Gone));
  }

  /** Recovery settles whatever a dead pump left behind, from every reachable state, and sends nothing. */
  lemma RecoveryCloses(s: System)
    requires Inv(s)
    ensures var s' := Seen(Run(s, [Crash, RecoverLost]));
      && s'.box.attempt.lifecycle.Closed? && Settled(s'.box.messages) && s'.sent == s.sent
      && AllSettle(Seen(s).box.messages, s'.box.messages)
  {
    CrashThenRecoverSettles(s);
    InterruptCloses(Seen(s).box, LOST);
    InterruptEnds(Seen(s).box, LOST);
    InterruptSettles(Seen(s).box, LOST);
  }

  // ----- Replay -----

  predicate Remembers(a: map<string, TurnedAway>, b: map<string, TurnedAway>) {
    forall key :: key in a ==> key in b && b[key] == a[key]
  }

  /** A request that was turned away stays known. */
  lemma ApplyRemembers(s: Store, op: Op)
    requires Apply(s, op).Some?
    ensures Remembers(s.turnedAway, Apply(s, op).value.turnedAway)
  {
  }

  lemma ExecRemembers(s: System, step: Step)
    requires Inv(s)
    ensures Remembers(Seen(s).box.turnedAway, Seen(Exec(s, step)).box.turnedAway)
  {
    var a := Seen(s);
    if step.Torn? {
      RecoverIsIdle(a.box);
      if UnderWay(a, step.op) && Leaves(a.box, step.op, step.left) {
        CrashIsRecovered(a.box, step.op, step.left);
        ApplyRemembersTorn(a.box, step.op, Recover(step.left).value);
      }
    } else {
      SeenDo(s, step);
      var op := DoApplies(a, step);
      if Do(a, step).box != a.box {
        ApplyRemembers(a.box, op);
      }
    }
  }

  lemma ApplyRemembersTorn(s: Store, op: Op, r: Store)
    requires Finishes(s, op, r)
    ensures Remembers(s.turnedAway, r.turnedAway)
  {
    match op
    case CloseOp(_, _) =>
    case InterruptOp(_) =>
    case _ => ApplyRemembers(s, op);
  }

  lemma {:induction false} RunRemembers(s: System, steps: seq<Step>)
    requires Inv(s)
    ensures Remembers(Seen(s).box.turnedAway, Seen(Run(s, steps)).box.turnedAway)
    decreases |steps|
  {
    if steps != [] {
      ExecKeepsInv(s, steps[0]);
      ExecRemembers(s, steps[0]);
      RunRemembers(Exec(s, steps[0]), steps[1..]);
    }
  }

  /** Keys are distinct, so a lookup finds the one message with the key. */
  lemma LookupIsExact(s: Store, i: nat)
    requires DistinctKeys(s) && i < |s.messages|
    ensures LookupTo(s.messages, |s.messages|, s.messages[i].key) == Some(i)
  {
    var at := LookupTo(s.messages, |s.messages|, s.messages[i].key);
    assert at.Some? ==> at.value == i;
  }

  /**
   However a run goes on, a request whose key was accepted before gets the number of that message again if
   owner and text are the same, and a conflict otherwise; one that was turned away gets number 0.
   */
  lemma ReplayIsForever(s: System, steps: seq<Step>, owner: string, key: string, text: string)
    requires Inv(s) && Usable(key, text)
    ensures var a, result := Seen(s).box, SendOutcome(Seen(Run(s, steps)).box, owner, key, text);
      && (forall i :: 0 <= i < |a.messages| && a.messages[i].key == key ==>
            result == if a.messages[i].owner == owner && a.messages[i].content == text then Replay(i + 1) else Conflict)
      && (key in a.turnedAway ==>
            result == if a.turnedAway[key].owner == owner && a.turnedAway[key].content == text then Replay(0) else Conflict)
  {
    var a, b := Seen(s).box, Seen(Run(s, steps)).box;
    RunKeepsInv(s, steps);
    OutcomesAreFinal(s, steps);
    RunRemembers(s, steps);
    forall i | 0 <= i < |a.messages| && a.messages[i].key == key
      ensures SendOutcome(b, owner, key, text) ==
        if a.messages[i].owner == owner && a.messages[i].content == text then Replay(i + 1) else Conflict
    {
      assert Follows(a.messages[i], b.messages[i]);
      KnownMessageReplays(b, i, owner, text);
    }
    if key in a.turnedAway {
      KnownRefusalReplays(b, owner, key, text);
    }
  }

  lemma KnownMessageReplays(s: Store, i: nat, owner: string, text: string)
    requires DistinctKeys(s) && Numbered(s.messages) && i < |s.messages| && Usable(s.messages[i].key, text)
    ensures SendOutcome(s, owner, s.messages[i].key, text) ==
      if s.messages[i].owner == owner && s.messages[i].content == text then Replay(i + 1) else Conflict
  {
    LookupIsExact(s, i);
  }

  lemma KnownRefusalReplays(s: Store, owner: string, key: string, text: string)
    requires DistinctKeys(s) && key in s.turnedAway && Usable(key, text)
    ensures SendOutcome(s, owner, key, text) ==
      if s.turnedAway[key].owner == owner && s.turnedAway[key].content == text then Replay(0) else Conflict
  {
    TurnedAwayIsNoMessage(s, key);
  }

  lemma TurnedAwayIsNoMessage(s: Store, key: string)
    requires DistinctKeys(s) && key in s.turnedAway
    ensures LookupTo(s.messages, |s.messages|, key).None?
  {
  }
}
