/**
 Progress without crashes: the program that a provisioner call follows, the measure that each of its steps
 lowers, and everything that may happen around it.
 */
module ProvisioningProgress {
  import opened Wrappers
  import opened ProvisioningRecord
  import opened ProvisioningSystem
  import opened ProvisioningSafety
  import opened ProvisioningFencing

  /** Nothing is at the bound path and the parent checkout is unchanged. */
  predicate Free(s: System) {
    Absent(s.world) && s.world.parentFingerprint == s.job.binding.parentFingerprint
  }

  predicate Found(s: System) {
    Verified(s.job.binding, s.world)
  }

  /** Either the effect is already there, or one more attempt may create it. */
  predicate Promising(s: System) {
    Found(s) || (Free(s) && |s.job.archives| < MAX_ARCHIVES)
  }

  /**
   What the durable record and the world must look like for a call to succeed.  A job whose host died while
   it was provisioning is not among them, and neither is a plan whose bound path is already taken.
   */
  predicate Recoverable(s: System) {
    || s.job.journal.state.Ready?
    || (&& s.job.launch.None?
        && (|| (s.job.journal.state.Planned? && s.job.intent.None? && Free(s))
            || (s.job.journal.state.ReissuePlanned? && Free(s))
            || (Ambiguous(s.job) && Promising(s))))
  }

  // ----- The program -----

  /** Host `h` sends a request of this kind with identities that the record accepts. */
  predicate SendsAccepted(s: System, h: nat, step: Step) {
    && step.Send? && step.h == h < |s.hosts|
    && Permitted(s, h, step.q) && Commit(s.job, s.hosts[h].seen, s.hosts[h].actor, step.q, s.world).Some?
  }

  /** A claim keeps the executable and takes another holder; the launch keeps that holder and binds its own copy. */
  predicate Same(r: Record, q: Request, claim: bool)
    requires q.ReauthorizeRequest?
  {
    r.intent.Some? && if claim then q.executable == r.intent.value.executable else q.holder == r.intent.value.holder
  }

  /** `step` is what the program of host `h` does next; it may choose fresh identities. */
  predicate Follows(s: System, h: nat, step: Step)
    requires h < |s.hosts|
  {
    match s.hosts[h].phase
    case Reading =>
      if Ambiguous(s.job) && Found(s) then step == Send(h, AdoptRequest(s.job.cleanup))
      else if s.job.journal.state.ReissuePlanned? then SendsAccepted(s, h, step) && step.q.ReauthorizeRequest? && Same(s.job, step.q, true)
      else step == CheckParent(h)
    case Claimed => step == CheckParent(h)
    case Cleared =>
      && SendsAccepted(s, h, step)
      && (match s.job.journal.state
          case Planned => step.q.PrepareRequest?
          case ReissuePlanned => step.q.ReauthorizeRequest? && Same(s.job, step.q, false)
          case _ => step.q.PlanReissueRequest?)
    case Prepared => step == SpawnController(h)
    case Spawned(p) => step == Send(h, ActivateRequest(p))
    case Active(_) => step == if s.guard.None? then PlaceGuard(h) else Send(h, RegisterRequest)
    case Guarded(_) => step == AskCreate(h)
    case Asked(p) => p < |s.processes| && s.processes[p].answer.Some? && step == HearAnswer(h)
    case Told(_, response) => step == Send(h, ReceiptRequest(response))
    case Receipted(p) =>
      step ==
        if Alive(s.processes, p) then KillController(h)
        else if s.guard.Some? then ClearGuard(h)
        else Send(h, PromoteRequest(Observe(s, p)))
    case _ => false
  }

  /** The controller that host `h` asked creates the exact worktree and says so. */
  predicate Creates(s: System, h: nat, step: Step)
    requires h < |s.hosts|
  {
    && s.hosts[h].phase.Asked? && step.Land? && step.p == s.hosts[h].phase.p
    && CanAnswer(s.processes, step.p) && s.job.intent.Some?
    && Exact(s.job.binding, step.effect) && step.effect.parentFingerprint == s.world.parentFingerprint
    && AcceptsResponse(s.job.binding, s.job.intent.value, step.answer) && step.answer.status.Created?
  }

  predicate Productive(s: System, h: nat, step: Step)
    requires h < |s.hosts|
  {
    Follows(s, h, step) || Creates(s, h, step)
  }

  /** Steps to `Ready`. */
  function Remaining(s: System, h: nat): nat
    requires h < |s.hosts|
  {
    if s.job.journal.state.Ready? then 0
    else
      match s.hosts[h].phase
      case Reading =>
        if Ambiguous(s.job) && Found(s) then 1 else if s.job.journal.state.ReissuePlanned? then 14 else 13
      case Claimed => 13
      case Cleared => 12
      case Prepared => 11
      case Spawned(_) => 10
      case Active(_) => if s.guard.None? then 9 else 8
      case Guarded(_) => 7
      case Asked(p) => if p < |s.processes| && s.processes[p].answer.Some? then 5 else 6
      case Told(_, _) => 4
      case Receipted(p) => if Alive(s.processes, p) then 3 else if s.guard.Some? then 2 else 1
      case _ => 0
  }

  // ----- On course -----

  /** Host `h` holds the present journal and intent. */
  predicate Holds(s: System, h: nat) {
    h < |s.hosts| && s.hosts[h].seen == s.job.journal && s.hosts[h].actor == s.job.intent
  }

  predicate Fresh(process: Process) {
    process.alive && !process.asked && !process.landed && process.answer.None?
  }

  /** The current attempt has process `p`, and the record does not know a response. */
  predicate Runs(s: System, p: ProcessId, status: IntentStatus) {
    && s.job.journal.state.Provisioning?
    && s.job.intent.Some? && s.job.intent.value.status == status && s.job.intent.value.process == Some(p)
    && p < |s.processes|
  }

  /** No controller runs and the path is free for the next one. */
  predicate Starting(s: System) {
    s.guard.None? && Free(s) && Opening(s.job) && s.job.intent.Some?
  }

  predicate Receptive(s: System) {
    (s.job.journal.state.Planned? && s.job.intent.None?) || s.job.journal.state.ReissuePlanned?
    || (Ambiguous(s.job) && |s.job.archives| < MAX_ARCHIVES && CleanedUp(s))
  }

  /** Where a call that goes well stands in each phase. */
  predicate Stage(s: System, h: nat)
    requires h < |s.hosts|
  {
    match s.hosts[h].phase
    case Reading => Recoverable(s) && (s.job.journal.state.CleanupPending? ==> CleanedUp(s)) && s.guard.None?
    case Claimed => s.guard.None? && Free(s) && s.job.journal.state.ReissuePlanned?
    case Cleared => s.guard.None? && Free(s) && Receptive(s)
    case Prepared => Starting(s)
    case Spawned(p) => Starting(s) && p < |s.processes| && Fresh(s.processes[p])
    case Active(p) =>
      Runs(s, p, Pending) && Fresh(s.processes[p]) && Free(s) && s.job.receipt.None? && (s.guard.Some? ==> s.guard == Some(p))
    case Guarded(p) =>
      Runs(s, p, Registered) && Fresh(s.processes[p]) && Free(s) && s.job.receipt.None? && s.guard == Some(p)
    case Asked(p) =>
      && Runs(s, p, Registered) && s.job.receipt.None? && s.guard == Some(p)
      && (match s.processes[p].answer
          case None => CanAnswer(s.processes, p) && Free(s)
          case Some(response) => Welcome(s, response) && s.processes[p].landed && s.processes[p].alive)
    case Told(p, response) =>
      Runs(s, p, Registered) && s.processes[p].alive && s.job.receipt.None? && s.guard == Some(p) && Welcome(s, response)
    case Receipted(p) =>
      && Runs(s, p, Registered) && Found(s) && (s.guard.Some? ==> s.guard == Some(p))
      && (Alive(s.processes, p) ==> s.guard == Some(p))
      && s.job.receipt.Some? && s.job.receipt.value.response.status.Created?
    case _ => false
  }

  /** The worktree is there and this answer will be recorded as its creation. */
  predicate Welcome(s: System, response: Response) {
    Found(s) && s.job.intent.Some? && AcceptsResponse(s.job.binding, s.job.intent.value, response) && response.status.Created?
  }

  predicate Going(s: System, h: nat) {
    Holds(s, h) && s.job.launch.None? && Stage(s, h)
  }

  predicate OnCourse(s: System, h: nat) {
    Inv(s) && Dated(s) && h < |s.hosts| && (s.job.journal.state.Ready? || Going(s, h))
  }

  // ----- Everything else -----

  /** Every other host is before the coordinator lease, dead, or fenced out. */
  predicate Aside(s: System, h: nat) {
    forall k :: 0 <= k < |s.hosts| && k != h ==>
      s.hosts[k].phase.Reading? || s.hosts[k].phase.Gone? || s.hosts[k].seen.revision < s.job.journal.revision
  }

  /** A call takes the coordinator lease before it looks at the destination or claims a plan. */
  predicate TakesLease(step: Step, k: nat) {
    step == CheckParent(k) || (step.Send? && step.h == k && step.q.ReauthorizeRequest?)
  }

  /** The host that takes the step, if a host does. */
  function Actor(step: Step): Option<nat> {
    match step
    case Crash(h) => Some(h)
    case Send(h, _) => Some(h)
    case CheckParent(h) => Some(h)
    case SpawnFails(h) => Some(h)
    case SpawnController(h) => Some(h)
    case PlaceGuard(h) => Some(h)
    case AskCreate(h) => Some(h)
    case HearAnswer(h) => Some(h)
    case KillController(h) => Some(h)
    case ClearGuard(h) => Some(h)
    case _ => None
  }

  /**
   What may happen around host `h`: any step of any other host, stale or not, except that nobody takes the
   lease that `h` holds with a current view; any step of any controller but the one that `h` works with;
   calls that start; but nobody outside the protocol.
   */
  predicate Around(s: System, h: nat, step: Step)
    requires h < |s.hosts|
  {
    match step
    case Start => true
    case Land(p, _, _) => Held(s.hosts[h].phase) != Some(p)
    case AnswerOnly(p, _) => Held(s.hosts[h].phase) != Some(p)
    case Die(p) => Held(s.hosts[h].phase) != Some(p)
    case Disturb(_) => false
    case _ =>
      var k := Actor(step).value;
      k != h && (k < |s.hosts| && s.hosts[k].seen == s.job.journal ==> !TakesLease(step, k))
  }

  // ----- What happens around a host -----

  lemma ReadyStays(s: System, step: Step)
    requires s.job.journal.state.Ready?
    ensures Exec(s, step).job.journal.state.Ready?
  {
    if Exec(s, step).job != s.job {
      OnlyAcceptedRequestsChangeTheRecord(s, step);
    }
  }

  /** What a host relies on: its own state, the guard and its controller. */
  predicate Frame(s: System, s': System, h: nat)
    requires h < |s.hosts|
  {
    && |s.hosts| <= |s'.hosts| && s'.hosts[h] == s.hosts[h]
    && s'.job == s.job && s'.world == s.world && s'.guard == s.guard
    && |s.processes| <= |s'.processes|
    && (Held(s.hosts[h].phase).Some? && Held(s.hosts[h].phase).value < |s.processes| ==>
          s'.processes[Held(s.hosts[h].phase).value] == s.processes[Held(s.hosts[h].phase).value])
    && (forall p :: 0 <= p < |s.processes| && s'.processes[p].alive ==> s.processes[p].alive)
  }

  /** The requests of everybody else change nothing, or make the job ready. */
  lemma AroundRequests(s: System, h: nat, k: nat, q: Request)
    requires h < |s.hosts| && Aside(s, h) && Around(s, h, Send(k, q))
    ensures var s' := Exec(s, Send(k, q)); s' == s || s'.job.journal.state.Ready?
  {
    if Exec(s, Send(k, q)) != s && s.hosts[k].seen != s.job.journal {
      StaleCallersAreRefused(s.job, s.hosts[k].seen, s.hosts[k].actor, q, s.world);
    }
  }

  /** While the job is provisioning, the host holds the attempt's controller; nobody else holds the guard. */
  predicate Working(s: System, h: nat)
    requires h < |s.hosts|
  {
    && (s.job.journal.state.Provisioning? ==> Current(s.job).Some? && Held(s.hosts[h].phase) == Current(s.job))
    && (s.guard.Some? ==> s.guard == Held(s.hosts[h].phase))
  }

  lemma GoingWorks(s: System, h: nat)
    requires Going(s, h) && Witnessed(s)
    ensures Working(s, h)
  {
  }

  lemma AroundControllers(s: System, h: nat, step: Step)
    requires h < |s.hosts| && Exclusive(s.job, s.processes) && Working(s, h) && Aside(s, h)
    requires Around(s, h, step) && (step.Land? || step.AnswerOnly? || step.Die?)
    ensures Frame(s, Exec(s, step), h) && Aside(Exec(s, step), h)
  {
  }

  /** Steps of another host on its controller: what it holds is not what `h` holds. */
  lemma AroundHolders(s: System, h: nat, k: nat, step: Step)
    requires h < |s.hosts| && AllKnow(s.processes, s.hosts) && Working(s, h) && Aside(s, h)
    requires Around(s, h, step) && (step == KillController(k) || step == ClearGuard(k))
    ensures Frame(s, Exec(s, step), h) && Aside(Exec(s, step), h)
  {
    assert Knows(s.processes, s.hosts[h], h);
    if k < |s.hosts| {
      assert Knows(s.processes, s.hosts[k], k);
    }
  }

  /** Another host cannot guard or ask: its view is stale, or it is not that far. */
  lemma AroundAttempts(s: System, h: nat, k: nat, step: Step)
    requires h < |s.hosts| && Aside(s, h) && Around(s, h, step) && (step == PlaceGuard(k) || step == AskCreate(k))
    ensures Exec(s, step) == s
  {
  }

  /** Steps that change at most the phase of another host, or start one. */
  lemma AroundPhases(s: System, h: nat, step: Step)
    requires h < |s.hosts| && Aside(s, h) && Dated(s) && Around(s, h, step)
    requires step.Start? || step.Crash? || step.CheckParent? || step.SpawnFails? || step.HearAnswer? || step.SpawnController?
    ensures Frame(s, Exec(s, step), h) && Aside(Exec(s, step), h)
  {
  }

  lemma AroundFrames(s: System, h: nat, step: Step)
    requires Tied(s) && h < |s.hosts| && Working(s, h) && Aside(s, h) && Dated(s)
    requires Around(s, h, step) && !step.Send?
    ensures Frame(s, Exec(s, step), h) && Aside(Exec(s, step), h)
  {
    match step
    case Land(_, _, _) => AroundControllers(s, h, step);
    case AnswerOnly(_, _) => AroundControllers(s, h, step);
    case Die(_) => AroundControllers(s, h, step);
    case KillController(k) => AroundHolders(s, h, k, step);
    case ClearGuard(k) => AroundHolders(s, h, k, step);
    case PlaceGuard(k) => AroundAttempts(s, h, k, step);
    case AskCreate(k) => AroundAttempts(s, h, k, step);
    case _ => AroundPhases(s, h, step);
  }

  lemma FrameKeepsCourse(s: System, s': System, h: nat)
    requires Going(s, h) && Frame(s, s', h) && Exclusive(s.job, s.processes) && AllKnow(s.processes, s.hosts)
    ensures Going(s', h) && Remaining(s', h) == Remaining(s, h)
  {
    assert Knows(s.processes, s.hosts[h], h);
  }

  lemma AroundKeepsGoing(s: System, h: nat, step: Step)
    requires Tied(s) && Dated(s) && Going(s, h) && !s.job.journal.state.Ready? && Aside(s, h) && Around(s, h, step)
    ensures var s' := Exec(s, step);
      s'.job.journal.state.Ready? || (Going(s', h) && Aside(s', h) && Remaining(s', h) == Remaining(s, h))
  {
    if step.Send? {
      AroundRequests(s, h, step.h, step.q);
    } else {
      GoingWorks(s, h);
      AroundFrames(s, h, step);
      FrameKeepsCourse(s, Exec(s, step), h);
    }
  }

  lemma ExecKeepsHosts(s: System, step: Step)
    ensures |s.hosts| <= |Exec(s, step).hosts|
  {
  }

  /** Whatever happens around it, the host stays on course, and is no farther from `Ready`. */
  lemma AroundKeepsCourse(s: System, h: nat, step: Step)
    requires OnCourse(s, h) && !s.job.journal.state.Ready? && Aside(s, h) && Around(s, h, step)
    ensures var s' := Exec(s, step);
      OnCourse(s', h) && (s'.job.journal.state.Ready? || (Aside(s', h) && Remaining(s', h) == Remaining(s, h)))
  {
    ExecKeepsInv(s, step);
    ExecKeepsDated(s, step);
    ExecKeepsHosts(s, step);
    AroundKeepsGoing(s, h, step);
  }

  // ----- The program makes progress -----

  lemma OwnStepsKeepAside(s: System, h: nat, step: Step)
    requires Dated(s) && h < |s.hosts| && Aside(s, h) && (Actor(step) == Some(h) || step.Land?)
    ensures Aside(Exec(s, step), h)
  {
    ExecKeepsDated(s, step);
  }

  ghost predicate Advances(s: System, s': System, h: nat)
    requires h < |s.hosts|
  {
    s'.job.journal.state.Ready? || (Going(s', h) && Remaining(s', h) == Remaining(s, h) - 1)
  }

  lemma AdoptionAdvances(s: System, h: nat, step: Step)
    requires Going(s, h) && s.hosts[h].phase.Reading? && !s.job.journal.state.Ready? && Follows(s, h, step)
    requires Ambiguous(s.job) && Found(s)
    ensures Exec(s, step).job.journal.state.Ready?
  {
  }

  lemma ClaimAdvances(s: System, h: nat, step: Step)
    requires Going(s, h) && s.hosts[h].phase.Reading? && Follows(s, h, step) && s.job.journal.state.ReissuePlanned?
    ensures Advances(s, Exec(s, step), h)
  {
  }

  lemma ReadingAdvances(s: System, h: nat, step: Step)
    requires Going(s, h) && s.hosts[h].phase.Reading? && Staged(s.job) && !s.job.journal.state.Ready? && Follows(s, h, step)
    ensures Advances(s, Exec(s, step), h)
  {
    if Ambiguous(s.job) && Found(s) {
      AdoptionAdvances(s, h, step);
    } else if s.job.journal.state.ReissuePlanned? {
      ClaimAdvances(s, h, step);
    }
  }

  lemma GateAdvances(s: System, h: nat, step: Step)
    requires Going(s, h) && (s.hosts[h].phase.Claimed? || s.hosts[h].phase.Cleared?) && Staged(s.job)
    requires !s.job.journal.state.Ready? && Follows(s, h, step)
    ensures Advances(s, Exec(s, step), h)
  {
  }

  lemma StartAdvances(s: System, h: nat, step: Step)
    requires Going(s, h) && (s.hosts[h].phase.Prepared? || s.hosts[h].phase.Spawned?) && Staged(s.job)
    requires !s.job.journal.state.Ready? && Follows(s, h, step)
    ensures Advances(s, Exec(s, step), h)
  {
  }

  lemma AttemptAdvances(s: System, h: nat, step: Step)
    requires Going(s, h) && (s.hosts[h].phase.Active? || s.hosts[h].phase.Guarded?) && Staged(s.job)
    requires !s.job.journal.state.Ready? && Follows(s, h, step)
    ensures Advances(s, Exec(s, step), h)
  {
  }

  lemma CreationAdvances(s: System, h: nat, step: Step)
    requires Going(s, h) && !s.job.journal.state.Ready? && Creates(s, h, step)
    ensures Advances(s, Exec(s, step), h)
  {
  }

  lemma HearingAdvances(s: System, h: nat, step: Step)
    requires Going(s, h) && s.hosts[h].phase.Asked? && !s.job.journal.state.Ready? && Follows(s, h, step)
    ensures Advances(s, Exec(s, step), h)
  {
  }

  lemma AnswerAdvances(s: System, h: nat, step: Step)
    requires Going(s, h) && s.hosts[h].phase.Told? && Staged(s.job)
    requires !s.job.journal.state.Ready? && Follows(s, h, step)
    ensures Advances(s, Exec(s, step), h)
  {
  }

  lemma ReceiptAdvances(s: System, h: nat, step: Step)
    requires Going(s, h) && s.hosts[h].phase.Receipted? && Staged(s.job)
    requires !s.job.journal.state.Ready? && Follows(s, h, step)
    ensures Advances(s, Exec(s, step), h)
  {
  }

  lemma PhaseAdvances(s: System, h: nat, step: Step)
    requires Going(s, h) && Staged(s.job) && !s.job.journal.state.Ready? && Productive(s, h, step)
    ensures Advances(s, Exec(s, step), h)
  {
    if Creates(s, h, step) {
      CreationAdvances(s, h, step);
    } else {
      match s.hosts[h].phase
      case Reading => ReadingAdvances(s, h, step);
      case Claimed => GateAdvances(s, h, step);
      case Cleared => GateAdvances(s, h, step);
      case Prepared => StartAdvances(s, h, step);
      case Spawned(_) => StartAdvances(s, h, step);
      case Active(_) => AttemptAdvances(s, h, step);
      case Guarded(_) => AttemptAdvances(s, h, step);
      case Asked(_) => HearingAdvances(s, h, step);
      case Told(_, _) => AnswerAdvances(s, h, step);
      case Receipted(_) => ReceiptAdvances(s, h, step);
    }
  }

  lemma ProductiveIsOwn(s: System, h: nat, step: Step)
    requires h < |s.hosts| && Productive(s, h, step)
    ensures Actor(step) == Some(h) || step.Land?
  {
  }

  /** Every step of the program, and the creation it waits for, is one step towards `Ready`. */
  lemma ProductiveAdvances(s: System, h: nat, step: Step)
    requires OnCourse(s, h) && !s.job.journal.state.Ready? && Aside(s, h) && Productive(s, h, step)
    ensures var s' := Exec(s, step);
      && OnCourse(s', h) && Aside(s', h)
      && (s'.job.journal.state.Ready? || Remaining(s', h) == Remaining(s, h) - 1)
  {
    ExecKeepsInv(s, step);
    ExecKeepsDated(s, step);
    ExecKeepsHosts(s, step);
    ProductiveIsOwn(s, h, step);
    OwnStepsKeepAside(s, h, step);
    PhaseAdvances(s, h, step);
  }

  // ----- Every run -----

  /**
   Until the job is ready, each step is the next one of the program of host `h`, the creation it waits for,
   or something that happens around it.
   */
  predicate Proceeds(s: System, h: nat, steps: seq<Step>)
    decreases |steps|
  {
    steps != [] && !s.job.journal.state.Ready? ==>
      && h < |s.hosts| && (Productive(s, h, steps[0]) || Around(s, h, steps[0]))
      && Proceeds(Exec(s, steps[0]), h, steps[1..])
  }

  /** How many of the steps the program and its controller took until the job was ready. */
  function Work(s: System, h: nat, steps: seq<Step>): nat
    decreases |steps|
  {
    if steps == [] || s.job.journal.state.Ready? || h >= |s.hosts| then 0
    else (if Productive(s, h, steps[0]) then 1 else 0) + Work(Exec(s, steps[0]), h, steps[1..])
  }

  lemma {:induction false} ReadyIsFinal(s: System, steps: seq<Step>)
    requires s.job.journal.state.Ready?
    ensures Run(s, steps).job.journal.state.Ready?
    decreases |steps|
  {
    if steps != [] {
      ReadyStays(s, steps[0]);
      ReadyIsFinal(Exec(s, steps[0]), steps[1..]);
    }
  }

  /**
   Every run in which one host follows its program and its controller creates what it is asked for, whatever
   other hosts and controllers do in between: each such step lowers the measure, and when as many were taken
   as remained at the start, the job is ready.
   */
  lemma {:induction false} EveryRunRecovers(s: System, h: nat, steps: seq<Step>)
    requires OnCourse(s, h) && (s.job.journal.state.Ready? || Aside(s, h)) && Proceeds(s, h, steps)
    ensures var s' := Run(s, steps);
      || s'.job.journal.state.Ready?
      || (OnCourse(s', h) && Aside(s', h) && Remaining(s', h) + Work(s, h, steps) == Remaining(s, h))
    ensures Work(s, h, steps) >= Remaining(s, h) ==> Run(s, steps).job.journal.state.Ready?
    decreases |steps|
  {
    if s.job.journal.state.Ready? {
      ReadyIsFinal(s, steps);
    } else if steps != [] {
      var step := steps[0];
      if Productive(s, h, step) {
        ProductiveAdvances(s, h, step);
      } else {
        AroundKeepsCourse(s, h, step);
      }
      if Exec(s, step).job.journal.state.Ready? {
        ReadyIsFinal(Exec(s, step), steps[1..]);
      } else {
        EveryRunRecovers(Exec(s, step), h, steps[1..]);
      }
    }
    if !Run(s, steps).job.journal.state.Ready? {
      SomethingRemains(Run(s, steps), h);
    }
  }

  lemma SomethingRemains(s: System, h: nat)
    requires Going(s, h) && !s.job.journal.state.Ready?
    ensures Remaining(s, h) >= 1
  {
  }

  // ----- There always is a next step -----

  /** A number that no archived attempt used as its attempt, holder or spawn identity. */
  function Unused(archives: seq<Archive>): (n: nat)
    ensures forall k :: 0 <= k < |archives| ==>
      archives[k].intent.attempt < n && archives[k].intent.holder < n && archives[k].intent.spawn < n
  {
    if archives == [] then 0
    else
      var i := archives[|archives| - 1].intent;
      Unused(archives[..|archives| - 1]) + i.attempt + i.holder + i.spawn + 1
  }

  function Identity(r: Record): nat {
    Unused(r.archives) + if r.intent.Some? then r.intent.value.attempt + r.intent.value.holder + r.intent.value.spawn + 1 else 0
  }

  function ExactEffect(s: System): World {
    World(Checkout(s.job.binding.executionRoot, s.job.binding.baseCommit, true), 1, 1, 1, s.world.parentFingerprint)
  }

  function CreatedResponse(r: Record): Response
    requires r.intent.Some?
  {
    Response(Created, r.intent.value.operation, r.binding.executionRoot, r.binding.controlRoot, r.binding.baseCommit)
  }

  /** The request that a cleared call sends, with fresh identities. */
  function ClearedRequest(r: Record): Request {
    var n := Identity(r);
    match r.intent
    case None => PrepareRequest(n, n, n, n, Executable(n, n))
    case Some(i) =>
      if r.journal.state.ReissuePlanned? then
        ReauthorizeRequest(i.holder, n, i.executable.(identity := i.executable.identity + 1))
      else PlanReissueRequest(n, n, n, i.executable)
  }

  function NextStep(s: System, h: nat): Step
    requires h < |s.hosts|
  {
    match s.hosts[h].phase
    case Reading =>
      if Ambiguous(s.job) && Found(s) then Send(h, AdoptRequest(s.job.cleanup))
      else if s.job.journal.state.ReissuePlanned? && s.job.intent.Some? then
        Send(h, ReauthorizeRequest(Identity(s.job), Identity(s.job), s.job.intent.value.executable))
      else CheckParent(h)
    case Claimed => CheckParent(h)
    case Cleared => Send(h, ClearedRequest(s.job))
    case Prepared => SpawnController(h)
    case Spawned(p) => Send(h, ActivateRequest(p))
    case Active(_) => if s.guard.None? then PlaceGuard(h) else Send(h, RegisterRequest)
    case Guarded(_) => AskCreate(h)
    case Asked(p) =>
      if s.job.intent.Some? && p < |s.processes| && s.processes[p].answer.None? then
        Land(p, ExactEffect(s), CreatedResponse(s.job))
      else HearAnswer(h)
    case Told(_, response) => Send(h, ReceiptRequest(response))
    case Receipted(p) =>
      if Alive(s.processes, p) then KillController(h)
      else if s.guard.Some? then ClearGuard(h)
      else Send(h, PromoteRequest(Observe(s, p)))
    case _ => Start
  }

  lemma RequestsAreFresh(r: Record)
    requires Consistent(r) && r.intent.Some?
    ensures var i, n := r.intent.value, Identity(r);
      && i.attempt < n && i.holder < n && i.spawn < n
      && forall k :: 0 <= k < |r.archives| ==>
           && Continues(i, r.archives[k].intent)
           && r.archives[k].intent.attempt < n && r.archives[k].intent.holder < n && r.archives[k].intent.spawn < n
  {
    assert ContinuesAll(r.intent.value, r.archives);
  }

  lemma ReadingRequestIsAccepted(s: System, h: nat)
    requires Consistent(s.job) && Going(s, h) && !s.job.journal.state.Ready? && s.hosts[h].phase.Reading?
    ensures Follows(s, h, NextStep(s, h))
  {
    if s.job.journal.state.ReissuePlanned? {
      RequestsAreFresh(s.job);
    }
  }

  lemma PrepareIsAccepted(s: System, h: nat)
    requires Going(s, h) && Staged(s.job) && s.hosts[h].phase.Cleared? && s.job.intent.None?
    ensures Follows(s, h, NextStep(s, h))
  {
  }

  lemma FreshRequestIsAccepted(s: System, h: nat)
    requires Consistent(s.job) && Going(s, h) && s.hosts[h].phase.Cleared? && s.job.intent.Some?
    ensures Follows(s, h, NextStep(s, h))
  {
    RequestsAreFresh(s.job);
  }

  /** Until the job is ready, the program or the controller it waits for can take a step. */
  lemma NextStepIsProductive(s: System, h: nat)
    requires OnCourse(s, h) && !s.job.journal.state.Ready?
    ensures Productive(s, h, NextStep(s, h))
  {
    if s.hosts[h].phase.Reading? {
      ReadingRequestIsAccepted(s, h);
    } else if s.hosts[h].phase.Cleared? && s.job.intent.None? {
      PrepareIsAccepted(s, h);
    } else if s.hosts[h].phase.Cleared? {
      FreshRequestIsAccepted(s, h);
    }
  }
}
