/**
 The provider transport: JSON-RPC 2.0 frames arrive in stdout batches, and a request settles only
 once its whole batch has been read.
 */
module AcpClient {
  import opened Wrappers

  /** `Text` keeps the safe integer that the text reads as, if any; `Odd` is any other non-integer. */
  datatype Id = Number(n: int) | Text(number: Option<int>) | Null | Odd

  datatype Method = Absent | Name(text: string) | NotText

  datatype Params = Structured | Primitive

  datatype Version = V2 | OtherVersion

  datatype StopReason = EndTurn | MaxTokens | MaxTurnRequests | Cancelled | Refusal | Unknown(text: string)

  /** The result member: what it says as a prompt response, or anything else. */
  datatype Result = Stopped(reason: StopReason, envelopeFields: bool) | OtherResult(value: string)

  /** One parsed JSON object; `id` and `result` are None, `error` false, when the member is absent. */
  datatype Frame = Frame(
    jsonrpc: Version,
    id: Option<Id>,
    call: Method,
    params: Option<Params>,
    result: Option<Result>,
    error: bool,
    extra: bool)

  /** One line of a batch: no JSON, JSON that is no object, or a frame. */
  datatype Line = Garbage | NotObject | Message(frame: Frame)

  /** Whether the pending request validates its result as a prompt response. */
  datatype Kind = Prompt | Plain

  datatype Outcome = Resolved(result: Result) | Rejected

  /** Each stop reason has two accepted spellings, compared exactly. */
  function ReadStopReason(text: string): (reason: StopReason) {
    match text
    case "end_turn" => EndTurn
    case "EndTurn" => EndTurn
    case "max_tokens" => MaxTokens
    case "MaxTokens" => MaxTokens
    case "max_turn_requests" => MaxTurnRequests
    case "MaxTurnRequests" => MaxTurnRequests
    case "cancelled" => Cancelled
    case "Cancelled" => Cancelled
    case "refusal" => Refusal
    case "Refusal" => Refusal
    case _ => Unknown(text)
  }

  predicate Successful(reason: StopReason) {
    reason.EndTurn? || reason.MaxTokens? || reason.MaxTurnRequests?
  }

  /** Exactly ten texts are stop reasons, and exactly six of them are successes. */
  lemma StopReasonsAreExact(text: string)
    ensures Successful(ReadStopReason(text)) <==>
      text in {"end_turn", "EndTurn", "max_tokens", "MaxTokens", "max_turn_requests", "MaxTurnRequests"}
    ensures ReadStopReason(text).Unknown? <==>
      !Successful(ReadStopReason(text)) && text !in {"cancelled", "Cancelled", "refusal", "Refusal"}
  {
  }

  // ----- One frame -----

  predicate IsServerRequest(f: Frame) {
    f.call.Name? && f.id.Some? && !f.id.value.Null?
  }

  predicate ValidNotification(f: Frame) {
    && f.jsonrpc.V2? && f.call.Name? && f.call.text != "" && f.id.None?
    && f.result.None? && !f.error && !f.extra
    && f.params != Some(Primitive)
  }

  predicate ValidPromptResponse(result: Result) {
    result.Stopped? && !result.reason.Unknown? && !result.envelopeFields
  }

  /** A response that may resolve a request of this kind. */
  predicate Good(f: Frame, kind: Kind) {
    && f.jsonrpc.V2? && f.call.Absent? && f.result.Some? && !f.error && !f.extra && f.params.None?
    && (kind.Prompt? ==> ValidPromptResponse(f.result.value))
  }

  predicate Answers(line: Line, n: nat) {
    line.Message? && !line.frame.call.Name? && line.frame.id == Some(Number(n))
  }

  // ----- One batch -----

  /** The first of the first `k` lines that answers request `n`. */
  function AnswerTo(batch: seq<Line>, k: nat, n: nat): (answer: Option<Frame>)
    requires k <= |batch|
    ensures answer.Some? <==> exists i :: 0 <= i < k && Answers(batch[i], n)
    ensures answer.Some? ==> Message(answer.value) in batch[..k] && Answers(Message(answer.value), n)
  {
    if k == 0 then None
    else
      var before := AnswerTo(batch, k - 1, n);
      if before.Some? then before
      else if Answers(batch[k - 1], n) then Some(batch[k - 1].frame)
      else None
  }

  /**
   Line `k` closes the transport: it is malformed, or a response without an exact numeric id, or one
   that is unmatched, a duplicate, or collides as text with a request that is still pending.
   */
  predicate Offends(batch: seq<Line>, k: nat, pending: map<nat, Kind>)
    requires k < |batch|
  {
    match batch[k]
    case Garbage => true
    case NotObject => true
    case Message(f) =>
      if IsServerRequest(f) then !f.jsonrpc.V2?
      else if f.call.Name? then !ValidNotification(f)
      else if f.id.None? then true
      else
        match f.id.value
        case Number(n) => n < 0 || n !in pending || AnswerTo(batch, k, n).Some?
        case Text(number) => number.Some? && StillPending(batch, k, pending, number.value)
        case _ => true
  }

  /** Request `n` was pending when the batch began and none of the first `k` lines rejected it. */
  predicate StillPending(batch: seq<Line>, k: nat, pending: map<nat, Kind>, n: int)
    requires k <= |batch|
  {
    n >= 0 && n in pending && (AnswerTo(batch, k, n).Some? ==> Good(AnswerTo(batch, k, n).value, pending[n]))
  }

  predicate PoisonedTo(batch: seq<Line>, k: nat, pending: map<nat, Kind>)
    requires k <= |batch|
  {
    k > 0 && (PoisonedTo(batch, k - 1, pending) || Offends(batch, k - 1, pending))
  }

  lemma {:induction false} PoisonedToIs(batch: seq<Line>, k: nat, pending: map<nat, Kind>)
    requires k <= |batch|
    ensures PoisonedTo(batch, k, pending) <==> exists i :: 0 <= i < k && Offends(batch, i, pending)
  {
    if k > 0 {
      PoisonedToIs(batch, k - 1, pending);
    }
  }

  predicate Poisoned(batch: seq<Line>, pending: map<nat, Kind>)
    ensures Poisoned(batch, pending) <==> exists i :: 0 <= i < |batch| && Offends(batch, i, pending)
  {
    PoisonedToIs(batch, |batch|, pending);
    PoisonedTo(batch, |batch|, pending)
  }

  function OutcomeOf(f: Frame, kind: Kind): Outcome {
    if Good(f, kind) then Resolved(f.result.value) else Rejected
  }

  /** What a batch tells the pending request `n`, if anything. */
  function Verdict(batch: seq<Line>, pending: map<nat, Kind>, n: nat): Option<Outcome>
    requires n in pending
  {
    if Poisoned(batch, pending) then Some(Rejected)
    else
      var answer := AnswerTo(batch, |batch|, n);
      if answer.Some? then Some(OutcomeOf(answer.value, pending[n])) else None
  }

  /** Everything one batch settles. */
  function Settlements(batch: seq<Line>, pending: map<nat, Kind>): map<nat, Outcome> {
    map n | n in pending && Verdict(batch, pending, n).Some? :: Verdict(batch, pending, n).value
  }

  /** `line` is a response to request `n`: its id is that exact number, and it names no method. */
  predicate Responds(line: Line, n: int) {
    line.Message? && line.frame.id == Some(Number(n)) && (line.frame.call == Absent || line.frame.call == NotText)
  }

  /** The one form of a response that resolves request `n` with `result`. */
  predicate Clean(line: Line, n: nat, kind: Kind, result: Result) {
    && line == Message(Frame(V2, Some(Number(n)), Absent, None, Some(result), false, false))
    && (kind == Plain
        || result in {Stopped(EndTurn, false), Stopped(MaxTokens, false), Stopped(MaxTurnRequests, false),
                      Stopped(Cancelled, false), Stopped(Refusal, false)})
  }

  /** `n` was answered before line `k`, and the first answer rejected it. */
  ghost predicate WasRejected(batch: seq<Line>, k: nat, n: nat, kind: Kind)
    requires k <= |batch|
  {
    exists j :: 0 <= j < k && Responds(batch[j], n) && (forall i :: 0 <= i < j ==> !Responds(batch[i], n))
      && forall result :: !Clean(batch[j], n, kind, result)
  }

  /**
   What may stand in line `k` of a batch without closing the transport: a server request, a notification,
   the first response to a pending request, or a response to somebody else's text id.
   */
  ghost predicate Passes(batch: seq<Line>, k: nat, pending: map<nat, Kind>)
    requires k < |batch|
  {
    match batch[k]
    case Message(Frame(version, Some(id), Name(_), _, _, _, _)) => id != Null && version == V2
    case Message(Frame(version, None, Name(text), params, result, error, extra)) =>
      && version == V2 && text != "" && params != Some(Primitive) && result == None && !error && !extra
    case Message(Frame(_, Some(Number(n)), _, _, _, _, _)) =>
      n >= 0 && n in pending && forall j :: 0 <= j < k ==> !Responds(batch[j], n)
    case Message(Frame(_, Some(Text(Some(n))), _, _, _, _, _)) =>
      n < 0 || n !in pending || WasRejected(batch, k, n, pending[n])
    case Message(Frame(_, Some(Text(None)), _, _, _, _, _)) => true
    case _ => false
  }

  lemma GoodIsClean(f: Frame, n: nat, kind: Kind, result: Result)
    requires Answers(Message(f), n)
    ensures Good(f, kind) && f.result == Some(result) <==> Clean(Message(f), n, kind, result)
  {
  }

  lemma {:induction false} AnswerToIsFirst(batch: seq<Line>, k: nat, n: nat, j: nat)
    requires j < k <= |batch| && Answers(batch[j], n) && forall i :: 0 <= i < j ==> !Answers(batch[i], n)
    ensures AnswerTo(batch, k, n) == Some(batch[j].frame)
  {
    if j < k - 1 {
      AnswerToIsFirst(batch, k - 1, n, j);
    }
  }

  lemma RejectedBefore(batch: seq<Line>, k: nat, pending: map<nat, Kind>, n: nat)
    requires k <= |batch| && n in pending
    ensures StillPending(batch, k, pending, n) <==> !WasRejected(batch, k, n, pending[n])
  {
    var first := FirstAnswer(batch, k, n);
    RejectedByFirst(batch, k, n, pending[n]);
    if first < k {
      AnswerToIsFirst(batch, k, n, first);
      GoodIffClean(batch[first], n, pending[n]);
    }
  }

  lemma RejectedByFirst(batch: seq<Line>, k: nat, n: nat, kind: Kind)
    requires k <= |batch|
    ensures var first := FirstAnswer(batch, k, n);
      WasRejected(batch, k, n, kind) <==> first < k && forall result :: !Clean(batch[first], n, kind, result)
  {
    assert forall line :: Responds(line, n) <==> Answers(line, n);
    var first := FirstAnswer(batch, k, n);
    if first < k {
      assert Responds(batch[first], n);
    }
  }

  lemma GoodIffClean(line: Line, n: nat, kind: Kind)
    requires Answers(line, n)
    ensures Good(line.frame, kind) <==> exists result :: Clean(line, n, kind, result)
  {
    if line.frame.result.Some? {
      GoodIsClean(line.frame, n, kind, line.frame.result.value);
    }
  }

  function FirstAnswer(batch: seq<Line>, k: nat, n: nat): (j: nat)
    requires k <= |batch|
    ensures j <= k && (j < k ==> Answers(batch[j], n))
    ensures forall i :: 0 <= i < j ==> !Answers(batch[i], n)
  {
    if k == 0 then 0
    else
      var j := FirstAnswer(batch, k - 1, n);
      if j < k - 1 || Answers(batch[k - 1], n) then j else k
  }

  /** The code lists what closes the transport; nothing else than the listed lines passes. */
  lemma OffendsUnlessItPasses(batch: seq<Line>, k: nat, pending: map<nat, Kind>)
    requires k < |batch|
    ensures Offends(batch, k, pending) <==> !Passes(batch, k, pending)
  {
    if batch[k].Message? && batch[k].frame.id.Some? && batch[k].frame.id.value.Text? && batch[k].frame.id.value.number.Some? {
      var n := batch[k].frame.id.value.number.value;
      if n >= 0 && n in pending {
        RejectedBefore(batch, k, pending, n);
      }
    }
  }

  lemma SecondAnswersOffend(batch: seq<Line>, pending: map<nat, Kind>, n: nat, first: nat)
    requires first < |batch| && Answers(batch[first], n)
    ensures forall i :: first < i < |batch| && Answers(batch[i], n) ==> Offends(batch, i, pending)
  {
    forall i | first < i < |batch| && Answers(batch[i], n)
      ensures Offends(batch, i, pending)
    {
      assert AnswerTo(batch, i, n).Some?;
    }
  }

  /**
   A request resolves exactly when every line of the batch passes, and one line, the only one that answers
   its exact numeric id, is a clean response with that result.
   */
  lemma ResolvesExactlyOnCleanAnswer(batch: seq<Line>, pending: map<nat, Kind>, n: nat, result: Result)
    requires n in pending
    ensures Verdict(batch, pending, n) == Some(Resolved(result)) <==>
      && (forall k :: 0 <= k < |batch| ==> Passes(batch, k, pending))
      && exists i :: 0 <= i < |batch| && Clean(batch[i], n, pending[n], result)
  {
    forall k | 0 <= k < |batch|
      ensures Offends(batch, k, pending) <==> !Passes(batch, k, pending)
    {
      OffendsUnlessItPasses(batch, k, pending);
    }
    if !Poisoned(batch, pending) {
      var first := FirstAnswer(batch, |batch|, n);
      if first < |batch| {
        AnswerToIsFirst(batch, |batch|, n, first);
        GoodIsClean(batch[first].frame, n, pending[n], result);
        SecondAnswersOffend(batch, pending, n, first);
      }
    }
  }

  /** A request stays pending exactly when every line passes and none responds to it; else it resolves or is rejected. */
  lemma StaysPendingExactlyWhenUnanswered(batch: seq<Line>, pending: map<nat, Kind>, n: nat)
    requires n in pending
    ensures Verdict(batch, pending, n).None? <==>
      forall k :: 0 <= k < |batch| ==> Passes(batch, k, pending) && !Responds(batch[k], n)
    ensures Verdict(batch, pending, n) == Some(Rejected) <==>
      || (exists k :: 0 <= k < |batch| && !Passes(batch, k, pending))
      || exists k :: 0 <= k < |batch| && Responds(batch[k], n) && forall result :: !Clean(batch[k], n, pending[n], result)
  {
    forall k | 0 <= k < |batch|
      ensures Offends(batch, k, pending) <==> !Passes(batch, k, pending)
      ensures Responds(batch[k], n) <==> Answers(batch[k], n)
    {
      OffendsUnlessItPasses(batch, k, pending);
    }
    if !Poisoned(batch, pending) {
      var first := FirstAnswer(batch, |batch|, n);
      if first < |batch| {
        AnswerToIsFirst(batch, |batch|, n, first);
        GoodIffClean(batch[first], n, pending[n]);
        SecondAnswersOffend(batch, pending, n, first);
      }
    }
  }

  /**
   A duplicate, wrong-typed or unmatched response rejects every pending request of the batch, also
   when it comes after the matching answer.
   */
  lemma PoisonAnywhereRejects(batch: seq<Line>, pending: map<nat, Kind>, n: nat, good: nat, bad: nat)
    requires n in pending && good < |batch| && bad < |batch| && good != bad
    requires Answers(batch[good], n)
    requires batch[bad].Message? && !batch[bad].frame.call.Name?
    requires var id := batch[bad].frame.id;
      id == Some(Number(n)) || id.None? || id.value.Null? || id.value.Odd?
      || (id.value.Number? && (id.value.n < 0 || id.value.n !in pending))
    ensures forall m :: m in pending ==> Verdict(batch, pending, m) == Some(Rejected)
  {
    var id := batch[bad].frame.id;
    if id == Some(Number(n)) {
      var later := if good < bad then bad else good;
      assert AnswerTo(batch, later, n).Some?;
      assert Offends(batch, later, pending);
    } else {
      assert Offends(batch, bad, pending);
    }
  }

  /** A text id that reads as a number still pending is no answer to it, and rejects everything pending. */
  lemma CollidingTextRejects(batch: seq<Line>, pending: map<nat, Kind>, n: nat, bad: nat)
    requires n in pending && bad < |batch|
    requires batch[bad].Message? && !batch[bad].frame.call.Name? && batch[bad].frame.id == Some(Text(Some(n)))
    requires StillPending(batch, bad, pending, n)
    ensures forall m :: m in pending ==> Verdict(batch, pending, m) == Some(Rejected)
  {
    assert Offends(batch, bad, pending);
  }

  // ----- Reading one batch -----

  /** Lines up to the first that is no JSON are read, also after the transport closed. */
  function ReadTo(batch: seq<Line>, k: nat): (end: nat)
    requires k <= |batch|
    ensures k <= end <= |batch|
    ensures forall i :: k <= i < end ==> !batch[i].Garbage?
    ensures end < |batch| ==> batch[end].Garbage?
    decreases |batch| - k
  {
    if k < |batch| && !batch[k].Garbage? then ReadTo(batch, k + 1) else k
  }

  /** What one line publishes. */
  function Note(line: Line): seq<Frame> {
    if line.Message? && ValidNotification(line.frame) then [line.frame] else []
  }

  /** The valid notifications among the first `k` lines, in order. */
  function Notifications(batch: seq<Line>, k: nat): seq<Frame>
    requires k <= |batch|
  {
    if k == 0 then [] else Notifications(batch, k - 1) + Note(batch[k - 1])
  }

  /** `at` rises through exactly the lines among the first `k` that hold a notification, and `published` holds their frames. */
  ghost predicate InOrder(batch: seq<Line>, k: nat, at: seq<nat>, published: seq<Frame>)
    requires k <= |batch|
  {
    && |published| == |at|
    && (forall i, j :: 0 <= i < j < |at| ==> at[i] < at[j])
    && (forall j :: 0 <= j < |at| ==> at[j] < k && batch[at[j]] == Message(published[j]))
    && (forall i :: 0 <= i < k ==> (i in at <==> Notifies(batch[i])))
  }

  /** A notification: a method name, no id, no member of a response, and parameters of the permitted form. */
  predicate Notifies(line: Line) {
    match line
    case Message(Frame(V2, None, Name(text), params, None, error, extra)) =>
      text != "" && params != Some(Primitive) && !error && !extra
    case _ => false
  }

  lemma NoteOfNotification(line: Line)
    ensures Note(line) == if Notifies(line) then [line.frame] else []
  {
  }

  lemma OneMoreInOrder(batch: seq<Line>, k: nat, at: seq<nat>, published: seq<Frame>) returns (more: seq<nat>)
    requires k < |batch| && InOrder(batch, k, at, published)
    ensures InOrder(batch, k + 1, more, published + Note(batch[k]))
  {
    NoteOfNotification(batch[k]);
    if Notifies(batch[k]) {
      more := at + [k];
      assert forall i :: i in more <==> i in at || i == k;
    } else {
      more := at;
      assert published + Note(batch[k]) == published;
    }
  }

  /** What is published is the subsequence of the notifications read, each once and in the order of the lines. */
  lemma {:induction false} PublishesInOrder(batch: seq<Line>, k: nat) returns (at: seq<nat>)
    requires k <= |batch|
    ensures InOrder(batch, k, at, Notifications(batch, k))
  {
    if k == 0 {
      at := [];
      assert InOrder(batch, 0, [], []);
    } else {
      var before := PublishesInOrder(batch, k - 1);
      at := OneMoreInOrder(batch, k - 1, before, Notifications(batch, k - 1));
    }
  }

  /** Valid notifications are published, and nothing else. */
  lemma {:induction false} PublishesExactly(batch: seq<Line>, k: nat, f: Frame)
    requires k <= |batch|
    ensures f in Notifications(batch, k) <==> Message(f) in batch[..k] && ValidNotification(f)
  {
    if k > 0 {
      PublishesExactly(batch, k - 1, f);
      NotificationsNext(batch, k - 1, batch[k - 1]);
      assert batch[..k] == batch[..k - 1] + [batch[k - 1]];
      assert f in Note(batch[k - 1]) <==> batch[k - 1] == Message(f) && ValidNotification(f);
    }
  }

  lemma {:induction false} NotificationsAppend(first: seq<Line>, second: seq<Line>, k: nat)
    requires k <= |second|
    ensures Notifications(first + second, |first| + k) == Notifications(first, |first|) + Notifications(second, k)
  {
    if k == 0 {
      NotificationsOfPrefix(first, second, |first|);
    } else {
      var line, n := second[k - 1], |first|;
      NotificationsAppend(first, second, k - 1);
      NotificationsNext(first + second, n + k - 1, line);
      NotificationsNext(second, k - 1, line);
      LastOfBoth(Notifications(first + second, n + k - 1), Notifications(first, n), Notifications(second, k - 1), Note(line));
    }
  }

  lemma NotificationsNext(batch: seq<Line>, k: nat, line: Line)
    requires k < |batch| && batch[k] == line
    ensures Notifications(batch, k + 1) == Notifications(batch, k) + Note(line)
  {
  }

  lemma LastOfBoth(both: seq<Frame>, a: seq<Frame>, b: seq<Frame>, c: seq<Frame>)
    requires both == a + b
    ensures both + c == a + (b + c)
  {
  }

  lemma {:induction false} NotificationsOfPrefix(first: seq<Line>, second: seq<Line>, k: nat)
    requires k <= |first|
    ensures Notifications(first + second, k) == Notifications(first, k)
  {
    if k > 0 {
      NotificationsOfPrefix(first, second, k - 1);
    }
  }

  lemma {:induction false} ReadToAppends(first: seq<Line>, second: seq<Line>, k: nat)
    requires k <= |first|
    ensures ReadTo(first + second, k) ==
      if ReadTo(first, k) < |first| then ReadTo(first, k) else |first| + ReadTo(second, 0)
    decreases |first| - k
  {
    if k < |first| {
      assert (first + second)[k] == first[k];
      if !first[k].Garbage? {
        ReadToAppends(first, second, k + 1);
      }
    } else {
      ReadToIsFirst(first + second, k, |first| + ReadTo(second, 0));
    }
  }

  lemma {:induction false} ReadToIsFirst(batch: seq<Line>, k: nat, end: nat)
    requires k <= end <= |batch| && (forall i :: k <= i < end ==> !batch[i].Garbage?)
    requires end < |batch| ==> batch[end].Garbage?
    ensures ReadTo(batch, k) == end
  {
  }

  /** Wherever a batch is cut, it publishes what the first part does, then what the second part does. */
  lemma PublishesPartByPart(first: seq<Line>, second: seq<Line>)
    ensures var batch := first + second;
      Notifications(batch, ReadTo(batch, 0)) ==
        Notifications(first, ReadTo(first, 0))
        + if Garbage in first then [] else Notifications(second, ReadTo(second, 0))
  {
    ReadToAppends(first, second, 0);
    assert ReadTo(first, 0) < |first| <==> Garbage in first;
    if Garbage in first {
      NotificationsOfPrefix(first, second, ReadTo(first, 0));
    } else {
      NotificationsAppend(first, second, ReadTo(second, 0));
    }
  }

  /** `held` keeps the good answers of the first `i` lines, `rejected` the requests they rejected. */
  ghost predicate Holds(held: map<nat, Result>, rejected: set<nat>, batch: seq<Line>, i: nat, pending: map<nat, Kind>)
    requires i <= |batch|
  {
    && (forall n :: n in held ==> n in pending)
    && (forall n :: n in rejected ==> n in pending)
    && (forall n :: n in pending ==> HoldsOne(held, rejected, AnswerTo(batch, i, n), pending[n], n))
  }

  ghost predicate HoldsOne(held: map<nat, Result>, rejected: set<nat>, answer: Option<Frame>, kind: Kind, n: nat) {
    && (n in held <==> answer.Some? && Good(answer.value, kind))
    && (n in held ==> answer.value.result == Some(held[n]))
    && (n in rejected <==> answer.Some? && !Good(answer.value, kind))
  }

  /** A line that answers nothing leaves the answers as they are. */
  lemma NoAnswerKeepsHolds(held: map<nat, Result>, rejected: set<nat>, batch: seq<Line>, i: nat, pending: map<nat, Kind>)
    requires i < |batch| && Holds(held, rejected, batch, i, pending)
    requires forall n :: n in pending ==> !Answers(batch[i], n)
    ensures Holds(held, rejected, batch, i + 1, pending)
  {
    forall n | n in pending
      ensures AnswerTo(batch, i + 1, n) == AnswerTo(batch, i, n)
    {
      assert !Answers(batch[i], n);
    }
  }

  lemma AnswerKeepsHolds(held: map<nat, Result>, rejected: set<nat>, batch: seq<Line>, i: nat, pending: map<nat, Kind>, n: nat)
    requires i < |batch| && Holds(held, rejected, batch, i, pending) && n in pending
    requires Answers(batch[i], n) && AnswerTo(batch, i, n).None?
    ensures var f := batch[i].frame;
      if Good(f, pending[n]) then Holds(held[n := f.result.value], rejected, batch, i + 1, pending)
      else Holds(held, rejected + {n}, batch, i + 1, pending)
  {
    var f := batch[i].frame;
    var held' := if Good(f, pending[n]) then held[n := f.result.value] else held;
    var rejected' := if Good(f, pending[n]) then rejected else rejected + {n};
    forall m | m in pending
      ensures HoldsOne(held', rejected', AnswerTo(batch, i + 1, m), pending[m], m)
    {
      assert HoldsOne(held, rejected, AnswerTo(batch, i, m), pending[m], m);
      if m != n {
        assert !Answers(batch[i], m);
        assert AnswerTo(batch, i + 1, m) == AnswerTo(batch, i, m);
      }
    }
  }

  /** Reads one line: the new answers, and whether the line closes the transport. */
  method ReadLine(batch: seq<Line>, i: nat, pending: map<nat, Kind>, held: map<nat, Result>, rejected: set<nat>)
    returns (held': map<nat, Result>, rejected': set<nat>, offends: bool)
    requires i < |batch| && Holds(held, rejected, batch, i, pending)
    ensures offends == Offends(batch, i, pending)
    ensures !offends ==> Holds(held', rejected', batch, i + 1, pending)
  {
    held', rejected', offends := held, rejected, false;
    if !batch[i].Message? {
      offends := true;
      return;
    }
    var f := batch[i].frame;
    if f.call.Name? {
      offends := if IsServerRequest(f) then !f.jsonrpc.V2? else !ValidNotification(f);
    } else if f.id.None? || f.id.value.Null? || f.id.value.Odd? {
      offends := true;
    } else if f.id.value.Text? {
      var number := f.id.value.number;
      offends := number.Some? && number.value >= 0 && number.value in pending && number.value !in rejected;
      assert offends == Offends(batch, i, pending) by {
        if number.Some? && number.value >= 0 && number.value in pending {
          assert HoldsOne(held, rejected, AnswerTo(batch, i, number.value), pending[number.value], number.value);
        }
      }
    } else {
      var n := f.id.value.n;
      if n < 0 || n !in pending || n in rejected || n in held {
        offends := true;
        if n >= 0 && n in pending {
          assert HoldsOne(held, rejected, AnswerTo(batch, i, n), pending[n], n);
        }
      } else {
        assert HoldsOne(held, rejected, AnswerTo(batch, i, n), pending[n], n);
        AnswerKeepsHolds(held, rejected, batch, i, pending, n);
        if Good(f, pending[n]) {
          held' := held[n := f.result.value];
        } else {
          rejected' := rejected + {n};
        }
      }
      return;
    }
    NoAnswerKeepsHolds(held, rejected, batch, i, pending);
  }

  /** Reads a whole batch; notifications go out line by line, good answers are held back. */
  method Scan(batch: seq<Line>, pending: map<nat, Kind>)
    returns (held: map<nat, Result>, rejected: set<nat>, offended: bool, published: seq<Frame>)
    ensures offended == Poisoned(batch, pending)
    ensures !offended ==> Holds(held, rejected, batch, |batch|, pending)
    ensures published == Notifications(batch, ReadTo(batch, 0))
  {
    held, rejected, offended, published := map[], {}, false, [];
    var i := 0;
    while i < |batch| && !batch[i].Garbage?
      invariant 0 <= i <= |batch|
      invariant ReadTo(batch, 0) == ReadTo(batch, i)
      invariant offended == PoisonedTo(batch, i, pending)
      invariant !offended ==> Holds(held, rejected, batch, i, pending)
      invariant published == Notifications(batch, i)
    {
      if !offended {
        held, rejected, offended := ReadLine(batch, i, pending, held, rejected);
      }
      if batch[i].Message? && ValidNotification(batch[i].frame) {
        published := published + [batch[i].frame];
      }
      i := i + 1;
    }
    if i < |batch| {
      GarbagePoisons(batch, i, pending);
      offended := true;
    }
  }

  lemma GarbagePoisons(batch: seq<Line>, i: nat, pending: map<nat, Kind>)
    requires i < |batch| && batch[i].Garbage?
    ensures Poisoned(batch, pending)
  {
    assert Offends(batch, i, pending);
  }

  lemma HeldIsSettled(held: map<nat, Result>, rejected: set<nat>, batch: seq<Line>, pending: map<nat, Kind>)
    requires !Poisoned(batch, pending) && Holds(held, rejected, batch, |batch|, pending)
    ensures forall n :: n in pending ==>
      Verdict(batch, pending, n) ==
        if n in held then Some(Resolved(held[n])) else if n in rejected then Some(Rejected) else None
  {
    forall n | n in pending
      ensures Verdict(batch, pending, n) ==
        if n in held then Some(Resolved(held[n])) else if n in rejected then Some(Rejected) else None
    {
      assert HoldsOne(held, rejected, AnswerTo(batch, |batch|, n), pending[n], n);
    }
  }

  lemma OffenceSettlesAll(batch: seq<Line>, pending: map<nat, Kind>)
    requires Poisoned(batch, pending)
    ensures Settlements(batch, pending) == map n | n in pending :: Rejected
  {
  }

  lemma HeldSettlements(held: map<nat, Result>, rejected: set<nat>, batch: seq<Line>, pending: map<nat, Kind>)
    requires !Poisoned(batch, pending) && Holds(held, rejected, batch, |batch|, pending)
    ensures Settlements(batch, pending) == map n | n in pending && (n in held || n in rejected) ::
      if n in held then Resolved(held[n]) else Rejected
  {
    HeldIsSettled(held, rejected, batch, pending);
  }

  /** What a whole batch settles, and the notifications it published on the way. */
  method ReadBatch(batch: seq<Line>, pending: map<nat, Kind>)
    returns (settlements: map<nat, Outcome>, offended: bool, published: seq<Frame>)
    ensures offended == Poisoned(batch, pending)
    ensures settlements == Settlements(batch, pending)
    ensures published == Notifications(batch, ReadTo(batch, 0))
  {
    var held, rejected;
    held, rejected, offended, published := Scan(batch, pending);
    if offended {
      OffenceSettlesAll(batch, pending);
      settlements := map n | n in pending :: Rejected;
    } else {
      HeldSettlements(held, rejected, batch, pending);
      settlements := map n | n in pending && (n in held || n in rejected) ::
        if n in held then Resolved(held[n]) else Rejected;
    }
  }

  // ----- The client -----

  class Client {
    const requests: Option<set<string>>
    const notifications: Option<set<string>>
    var nextId: nat
    var reserved: set<nat>
    var pending: map<nat, Kind>
    var settled: map<nat, Outcome>
    var written: seq<(Option<nat>, string)>
    var published: seq<Frame>
    var closed: bool

    /** Reserved, pending and settled ids are distinct and were handed out by this client. */
    ghost predicate Valid()
      reads this
    {
      && nextId >= 1
      && (forall n :: n in reserved ==> 0 < n < nextId && n !in pending && n !in settled)
      && (forall n :: n in pending ==> 0 < n < nextId && n !in settled)
      && (forall n :: n in settled ==> 0 < n < nextId)
      && (closed ==> pending == map[])
    }

    constructor (requests: Option<set<string>>, notifications: Option<set<string>>)
      ensures Valid() && !closed && nextId == 1 && written == [] && published == []
      ensures this.requests == requests && this.notifications == notifications
    {
      this.requests, this.notifications := requests, notifications;
      nextId, reserved, pending, settled := 1, {}, map[], map[];
      written, published, closed := [], [], false;
    }

    /** Reserves the next numeric id; no byte is written. */
    method ReserveRequestId() returns (id: Option<nat>)
      requires Valid()
      modifies this`nextId, this`reserved
      ensures Valid()
      ensures id.Some? <==> !closed
      ensures id.Some? ==>
        && id.value == old(nextId) && nextId == id.value + 1 && reserved == old(reserved) + {id.value}
        && id.value !in old(reserved) && id.value !in pending && id.value !in settled
      ensures id.None? ==> nextId == old(nextId) && reserved == old(reserved)
    {
      if closed {
        return None;
      }
      id := Some(nextId);
      reserved := reserved + {nextId};
      nextId := nextId + 1;
    }

    /** Sends a reserved request once; a method outside the allowlist is refused before any byte is written. */
    method DispatchReserved(id: nat, call: string, kind: Kind) returns (ok: bool)
      requires Valid()
      modifies this`reserved, this`pending, this`written
      ensures Valid()
      ensures ok == (!closed && id in old(reserved) && call != "" && (requests.Some? ==> call in requests.value))
      ensures ok ==>
        && written == old(written) + [(Some(id), call)]
        && pending == old(pending)[id := kind] && reserved == old(reserved) - {id}
      ensures !ok ==> written == old(written) && pending == old(pending) && reserved == old(reserved)
    {
      ok := !closed && id in reserved && call != "" && (requests.Some? ==> call in requests.value);
      if ok {
        reserved := reserved - {id};
        pending := pending[id := kind];
        written := written + [(Some(id), call)];
      }
    }

    method Notify(call: string) returns (ok: bool)
      requires Valid()
      modifies this`written
      ensures Valid()
      ensures ok == (call != "" && (notifications.Some? ==> call in notifications.value))
      ensures written == if ok && !closed then old(written) + [(None, call)] else old(written)
    {
      ok := call != "" && (notifications.Some? ==> call in notifications.value);
      if ok && !closed {
        written := written + [(None, call)];
      }
    }

    /**
     One stdout batch.  Good answers are held back until the last line; an offending line closes the
     transport and rejects everything pending.
     */
    method Receive(batch: seq<Line>)
      requires Valid()
      modifies this`pending, this`settled, this`published, this`closed
      ensures Valid()
      ensures closed == (old(closed) || Poisoned(batch, old(pending)))
      ensures published == old(published) + Notifications(batch, ReadTo(batch, 0))
      ensures old(published) <= published
      ensures exists at :: InOrder(batch, ReadTo(batch, 0), at, published[|old(published)|..])
      ensures settled == old(settled) + Settlements(batch, old(pending))
      ensures pending == old(pending) - Settlements(batch, old(pending)).Keys
    {
      var settlements, offended, notes := ReadBatch(batch, pending);
      ghost var at := PublishesInOrder(batch, ReadTo(batch, 0));
      assert (published + notes)[|published|..] == notes;
      published := published + notes;
      closed := closed || offended;
      settled := settled + settlements;
      pending := pending - settlements.Keys;
    }

    /** A request that waited too long is rejected alone; a late answer to it then is unmatched. */
    method TimeOut(id: nat)
      requires Valid()
      modifies this`pending, this`settled
      ensures Valid()
      ensures pending == old(pending) - {id}
      ensures settled == if id in old(pending) then old(settled)[id := Rejected] else old(settled)
    {
      if id in pending {
        pending := pending - {id};
        settled := settled[id := Rejected];
      }
    }

    /** The process exits or a stream fails. */
    method Close()
      requires Valid()
      modifies this`pending, this`settled, this`closed
      ensures Valid() && closed && pending == map[]
      ensures settled == old(settled) + map n | n in old(pending) :: Rejected
    {
      settled := settled + map n | n in pending :: Rejected;
      pending := map[];
      closed := true;
    }
  }
}
