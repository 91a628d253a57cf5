/**
 The provisioning protocol as a step system: one durable record, the world at the bound path, any
 number of host processes that may die between any two steps, and the controller processes they
 start.  A run is a sequence of steps chosen by an adversary; a step that is not enabled does nothing.
 */
module ProvisioningSystem {
  import opened Wrappers
  import opened ProvisioningRecord

  /** A controller.  `activated`: the record names it as the provisioning process of some attempt. */
  datatype Process = Process(
    owner: nat,
    alive: bool,
    activated: bool,
    asked: bool,
    landed: bool,
    answer: Option<Response>)

  /**
   How far one call of the provisioner has come; `Gone` once its host process has died.  After any
   failure the host cleans up and reads the record anew.  A crashed reissue plan is `Claimed` first; a
   call is `Cleared` once it found the parent directory of the bound path empty, and `Unspawned` when no
   controller could be created.
   */
  datatype Phase =
    | Reading
    | Claimed
    | Cleared
    | Prepared
    | Unspawned
    | Spawned(p: ProcessId)
    | Active(p: ProcessId)
    | Guarded(p: ProcessId)
    | Asked(p: ProcessId)
    | Told(p: ProcessId, response: Response)
    | Receipted(p: ProcessId)
    | Gone

  /** The journal and intent a host last read or wrote, which it presents with every request. */
  datatype Host = Host(seen: Journal, actor: Option<Intent>, phase: Phase)

  /**
   `asks` counts create requests sent, `landings` the requests that changed the world, `removals` the
   times somebody outside the protocol made a present effect absent; `disturbed` tells whether
   anybody outside the protocol touched the world since the worktree was last verified.
   */
  datatype System = System(
    job: Record,
    world: World,
    processes: seq<Process>,
    hosts: seq<Host>,
    guard: Option<ProcessId>,
    asks: nat,
    landings: nat,
    removals: nat,
    disturbed: bool)

  datatype Step =
    // a provisioner call starts, or its host process dies
    | Start
    | Crash(h: nat)
    // a host sends a durable request
    | Send(h: nat, q: Request)
    // what a host does outside the record
    | CheckParent(h: nat)
    | SpawnFails(h: nat)
    | SpawnController(h: nat)
    | PlaceGuard(h: nat)
    | AskCreate(h: nat)
    | HearAnswer(h: nat)
    | KillController(h: nat)
    | ClearGuard(h: nat)
    // what a controller does, at any time while it lives
    | Land(p: ProcessId, effect: World, answer: Response)
    | AnswerOnly(p: ProcessId, answer: Response)
    | Die(p: ProcessId)
    // anybody else
    | Disturb(w: World)

  function Initial(b: Binding, w: World): System {
    System(Admitted(b), w, [], [], None, 0, 0, 0, false)
  }

  predicate Live(s: System, h: nat) {
    h < |s.hosts| && !s.hosts[h].phase.Gone?
  }

  predicate Alive(ps: seq<Process>, p: ProcessId) {
    p < |ps| && ps[p].alive
  }

  /** The controller that a host started in this call. */
  function Held(phase: Phase): Option<ProcessId> {
    match phase
    case Spawned(p) => Some(p)
    case Active(p) => Some(p)
    case Guarded(p) => Some(p)
    case Asked(p) => Some(p)
    case Told(p, _) => Some(p)
    case Receipted(p) => Some(p)
    case _ => None
  }

  /** What can be observed of controller `p` before an attempt is settled on it. */
  function Observe(s: System, p: ProcessId): CleanupProof {
    CleanupProof(p, !Alive(s.processes, p), s.guard.None?)
  }

  /** The controller of the stored attempt, if it has one, is gone and no guard is left. */
  predicate CleanedUp(s: System) {
    && s.guard.None?
    && (s.job.intent.Some? && s.job.intent.value.process.Some? ==> !Alive(s.processes, s.job.intent.value.process.value))
  }

  /** The requests a host makes where it stands, with the facts it really observed. */
  predicate Permitted(s: System, h: nat, q: Request)
    requires h < |s.hosts|
  {
    var phase := s.hosts[h].phase;
    match q
    case PrepareRequest(_, _, _, _, _) => phase.Cleared? && s.guard.None?
    case PlanReissueRequest(_, _, _, _) => phase.Cleared? && CleanedUp(s)
    case ReauthorizeRequest(_, _, _) => (phase.Reading? || phase.Cleared?) && s.guard.None?
    case AdoptRequest(_) => phase.Reading? && CleanedUp(s)
    case ActivateRequest(p) => phase == Spawned(p) && Alive(s.processes, p) && s.guard.None?
    case RegisterRequest => phase.Active? && s.guard == Some(phase.p)
    case ReceiptRequest(response) => phase.Told? && phase.response == response
    case PromoteRequest(proof) =>
      && phase.Receipted? && proof == Observe(s, phase.p)
      && s.job.receipt.Some? && s.job.receipt.value.response.status.Created?
    case RetainRequest(proof) => Held(phase).Some? && proof == Observe(s, Held(phase).value)
    case SettleRequest(proof) =>
      || (phase.Unspawned? && proof.None? && s.guard.None?)
      || (&& (phase.Spawned? || phase.Active?) && proof == Some(Observe(s, phase.p))
          && s.job.intent.Some? && s.job.intent.value.status.Pending?)
    case LaunchRequest => phase.Reading?
  }

  function NextPhase(phase: Phase, q: Request): Phase {
    match q
    case PrepareRequest(_, _, _, _, _) => Prepared
    case PlanReissueRequest(_, _, _, _) => Prepared
    case ReauthorizeRequest(_, _, _) => if phase.Reading? then Claimed else Prepared
    case ActivateRequest(p) => Active(p)
    case RegisterRequest => if phase.Active? then Guarded(phase.p) else phase
    case ReceiptRequest(_) => if phase.Told? then Receipted(phase.p) else phase
    case _ => Reading
  }

  /** The system after the record became `r`: the host remembers what it wrote. */
  function Applied(s: System, h: nat, q: Request, r: Record): System
    requires h < |s.hosts|
  {
    var phase := s.hosts[h].phase;
    var s' := s.(job := r, hosts := s.hosts[h := Host(r.journal, r.intent, NextPhase(phase, q))]);
    match q
    case ActivateRequest(p) =>
      if p < |s.processes| then s'.(processes := s.processes[p := s.processes[p].(activated := true)]) else s'
    case PromoteRequest(_) => s'.(disturbed := false)
    case AdoptRequest(_) => s'.(disturbed := false)
    case _ => s'
  }

  function Sent(s: System, h: nat, q: Request): System
    requires h < |s.hosts|
  {
    match Commit(s.job, s.hosts[h].seen, s.hosts[h].actor, q, s.world)
    case None => s
    case Some(r) => Applied(s, h, q, r)
  }

  function InPhase(s: System, h: nat, phase: Phase): System
    requires h < |s.hosts|
  {
    s.(hosts := s.hosts[h := s.hosts[h].(phase := phase)])
  }

  /** Where a call looks at the parent directory: before its first intent, or once it has claimed a plan. */
  predicate AtGate(host: Host) {
    host.phase.Claimed? || (host.phase.Reading? && (host.seen.state.Planned? || host.seen.state.CleanupPending?))
  }

  /** A controller that was asked to create and has not answered yet. */
  predicate CanAnswer(ps: seq<Process>, p: ProcessId) {
    Alive(ps, p) && ps[p].asked && !ps[p].landed && ps[p].answer.None?
  }

  /** The record still is what host `h` wrote when it activated its controller. */
  predicate HoldsAttempt(s: System, h: nat, status: IntentStatus)
    requires h < |s.hosts|
  {
    && Intact(s.job, s.world) && s.job.journal == s.hosts[h].seen && s.job.journal.state.Provisioning?
    && s.job.intent.Some? && s.job.intent.value.status == status
    && s.job.intent.value.process == Held(s.hosts[h].phase)
  }

  function Killed(ps: seq<Process>, p: ProcessId): seq<Process> {
    if p < |ps| then ps[p := ps[p].(alive := false)] else ps
  }

  function Exec(s: System, step: Step): System {
    match step
    case Start => s.(hosts := s.hosts + [Host(s.job.journal, s.job.intent, Reading)])
    case Crash(h) => if Live(s, h) then InPhase(s, h, Gone) else s
    case Send(h, q) => if Live(s, h) && Permitted(s, h, q) then Sent(s, h, q) else s
    case CheckParent(h) =>
      if Live(s, h) && AtGate(s.hosts[h]) && s.world.tree.NoTree? then InPhase(s, h, Cleared) else s
    case SpawnFails(h) => if Live(s, h) && s.hosts[h].phase.Prepared? then InPhase(s, h, Unspawned) else s
    case SpawnController(h) =>
      if Live(s, h) && s.hosts[h].phase.Prepared? then
        InPhase(s, h, Spawned(|s.processes|))
          .(processes := s.processes + [Process(h, true, false, false, false, None)])
      else s
    case PlaceGuard(h) =>
      if Live(s, h) && s.hosts[h].phase.Active? && s.guard.None? && HoldsAttempt(s, h, Pending) then
        s.(guard := Some(s.hosts[h].phase.p))
      else s
    case AskCreate(h) =>
      if && Live(s, h) && s.hosts[h].phase.Guarded? && Alive(s.processes, s.hosts[h].phase.p)
         && HoldsAttempt(s, h, Registered) && (s.job.archives != [] ==> Absent(s.world))
      then
        var p := s.hosts[h].phase.p;
        InPhase(s, h, Asked(p)).(processes := s.processes[p := s.processes[p].(asked := true)], asks := s.asks + 1)
      else s
    case HearAnswer(h) =>
      if Live(s, h) && s.hosts[h].phase.Asked? then
        var p := s.hosts[h].phase.p;
        if p < |s.processes| && s.processes[p].answer.Some? then
          InPhase(s, h, Told(p, s.processes[p].answer.value))
        else s
      else s
    case KillController(h) =>
      if Live(s, h) && Held(s.hosts[h].phase).Some? then
        s.(processes := Killed(s.processes, Held(s.hosts[h].phase).value))
      else s
    case ClearGuard(h) =>
      if Live(s, h) && s.guard.Some? && s.guard == Held(s.hosts[h].phase) && !Alive(s.processes, s.guard.value) then
        s.(guard := None)
      else s
    case Land(p, effect, answer) =>
      if CanAnswer(s.processes, p) && !Absent(effect) then
        s.(processes := s.processes[p := s.processes[p].(landed := true, answer := Some(answer))],
           world := effect, landings := s.landings + 1)
      else s
    case AnswerOnly(p, answer) =>
      if CanAnswer(s.processes, p) then
        s.(processes := s.processes[p := s.processes[p].(answer := Some(answer))])
      else s
    case Die(p) => s.(processes := Killed(s.processes, p))
    case Disturb(w) =>
      s.(world := w, disturbed := true,
         removals := s.removals + if Absent(w) && !Absent(s.world) then 1 else 0)
  }

  function Run(s: System, steps: seq<Step>): System
    decreases |steps|
  {
    if steps == [] then s else Run(Exec(s, steps[0]), steps[1..])
  }
}
