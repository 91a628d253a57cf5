/** Safety of the provisioning protocol over every run, whatever crashes, stale hosts and lost answers do. */
module ProvisioningSafety {
  import opened Wrappers
  import opened ProvisioningRecord
  import opened ProvisioningSystem

  /** The process of the current attempt, if it has one. */
  function Current(r: Record): Option<ProcessId> {
    if r.intent.Some? then r.intent.value.process else None
  }

  predicate Opening(r: Record) {
    r.journal.state.Planned? || r.journal.state.ReissuePlanned?
  }

  // ----- The invariant -----

  predicate NamedAndDead(ps: seq<Process>, p: ProcessId) {
    p < |ps| && ps[p].activated && !ps[p].alive
  }

  /**
   A live activated controller is the current attempt's, and only while the job is provisioning;
   only activated controllers were ever asked, and only asked ones changed the world.
   */
  predicate Exclusive(r: Record, ps: seq<Process>) {
    && (forall p :: 0 <= p < |ps| && ps[p].activated && ps[p].alive ==>
          r.journal.state.Provisioning? && Current(r) == Some(p))
    && (forall p :: 0 <= p < |ps| && (ps[p].landed || ps[p].answer.Some?) ==> ps[p].asked)
    && (forall p :: 0 <= p < |ps| && ps[p].asked ==> ps[p].activated)
    && (Current(r).Some? ==> Current(r).value < |ps| && ps[Current(r).value].activated)
    && (forall a :: a in r.archives ==> NamedAndDead(ps, a.cleanup.process))
  }

  predicate Owns(ps: seq<Process>, host: Host, h: nat, p: ProcessId) {
    && p < |ps| && ps[p].owner == h && ps[p].activated
    && host.seen.provisioner.Some? && host.seen.provisioner.value.process == p
  }

  /** What a host's phase says about the controller it started. */
  predicate Knows(ps: seq<Process>, host: Host, h: nat) {
    match host.phase
    case Spawned(p) => p < |ps| && ps[p].owner == h && !ps[p].activated
    case Active(p) => Owns(ps, host, h, p) && !ps[p].asked
    case Guarded(p) => Owns(ps, host, h, p) && !ps[p].asked
    case Asked(p) => Owns(ps, host, h, p) && ps[p].asked
    case Told(p, response) => Owns(ps, host, h, p) && ps[p].asked
    case Receipted(p) => Owns(ps, host, h, p) && ps[p].asked
    case _ => true
  }

  predicate AllKnow(ps: seq<Process>, hosts: seq<Host>) {
    forall h :: 0 <= h < |hosts| ==> Knows(ps, hosts[h], h)
  }

  /** The current attempt may still put an effect at the bound path. */
  predicate MayLand(r: Record, ps: seq<Process>) {
    || Opening(r)
    || (&& r.journal.state.Provisioning? && Current(r).Some? && Current(r).value < |ps|
        && ps[Current(r).value].alive && !ps[Current(r).value].landed)
  }

  predicate CurrentAsked(r: Record, ps: seq<Process>) {
    Current(r).Some? && Current(r).value < |ps| && ps[Current(r).value].asked
  }

  predicate Counted(s: System) {
    && s.landings <= s.removals + (if Absent(s.world) then 0 else 1)
    && (MayLand(s.job, s.processes) ==> s.landings <= s.removals)
    && s.asks <= |s.job.archives| + (if CurrentAsked(s.job, s.processes) then 1 else 0)
  }

  predicate Witnessed(s: System) {
    && (s.job.journal.state.Ready? ==> Verified(s.job.binding, s.world) || s.disturbed)
    && (s.guard.Some? ==> s.job.journal.state.Provisioning? && Current(s.job) == s.guard)
    && (s.job.journal.state.Failed? ==> !CurrentAsked(s.job, s.processes))
    && (s.job.journal.state.Ready? && s.job.receipt.Some? ==> s.job.receipt.value.response.status.Created?)
  }

  /** The part of the invariant that relates the record to processes, hosts and the world. */
  predicate Tied(s: System) {
    && Exclusive(s.job, s.processes)
    && AllKnow(s.processes, s.hosts)
    && Counted(s)
    && Witnessed(s)
  }

  predicate Inv(s: System) {
    Consistent(s.job) && Tied(s)
  }

  // ----- Durable requests -----

  function ProofOf(q: Request): Option<CleanupProof> {
    match q
    case PromoteRequest(proof) => Some(proof)
    case RetainRequest(proof) => Some(proof)
    case SettleRequest(proof) => proof
    case _ => None
  }

  /** What an accepted request does to the facts that the invariant depends on. */
  ghost predicate Moves(r: Record, q: Request, seen: World, r': Record) {
    && r'.binding == r.binding
    && (if q.ActivateRequest? then
          Opening(r) && r'.journal.state.Provisioning? && Current(r') == Some(q.process)
        else
          && (Current(r') == Current(r) || Current(r').None?)
          && (r'.journal.state.Provisioning? ==> r.journal.state.Provisioning? && Current(r') == Current(r))
          && (r.journal.state.Provisioning? && !r'.journal.state.Provisioning? ==>
                ProofOf(q).Some? && r.intent.Some? && Proves(ProofOf(q).value, r.intent.value)))
    && (if q.PlanReissueRequest? then
          && Absent(seen) && r.journal.state.CleanupPending? && Current(r').None?
          && exists a :: r'.archives == r.archives + [a] && Current(r) == Some(a.cleanup.process)
        else
          r'.archives == r.archives && (Opening(r') ==> Opening(r)) && (!q.ActivateRequest? ==> Current(r') == Current(r)))
    && (r'.journal.state.Ready? ==> Verified(r.binding, seen))
    && (r'.journal.state.Ready? && !q.PromoteRequest? && r'.receipt.Some? ==> r.journal.state.Ready? && r'.receipt == r.receipt)
    && (q.PromoteRequest? ==> r'.receipt == r.receipt)
    && (r'.journal.state.Failed? ==> q.SettleRequest?)
  }

  lemma CommitMoves(r: Record, expected: Journal, actor: Option<Intent>, q: Request, seen: World)
    requires Staged(r) && Evidenced(r)
    requires Commit(r, expected, actor, q, seen).Some?
    ensures Moves(r, q, seen, Commit(r, expected, actor, q, seen).value)
  {
    var r' := Commit(r, expected, actor, q, seen).value;
    if q.PlanReissueRequest? {
      assert r'.archives == r.archives + [ArchiveOf(r, seen)];
    }
  }

  /** If a request takes the job out of provisioning, its controller is gone and unguarded. */
  predicate LeavesCleanly(s: System, r': Record) {
    s.job.journal.state.Provisioning? && !r'.journal.state.Provisioning? ==>
      && s.guard.None?
      && (Current(s.job).Some? ==> !Alive(s.processes, Current(s.job).value))
  }

  /** A failed attempt was never asked to create, and only a `created` receipt is promoted. */
  predicate Ends(s: System, q: Request, r': Record) {
    && (q.SettleRequest? ==> !CurrentAsked(r', s.processes))
    && (q.PromoteRequest? ==> r'.receipt.Some? && r'.receipt.value.response.status.Created?)
  }

  lemma PermittedLeavesCleanly(s: System, h: nat, q: Request, r': Record)
    requires h < |s.hosts| && Permitted(s, h, q) && Moves(s.job, q, s.world, r')
    ensures LeavesCleanly(s, r')
  {
  }

  /** What an accepted request leaves of the counters, the evidence and the live controllers. */
  lemma MovesKeepRest(s: System, q: Request, r': Record)
    requires Exclusive(s.job, s.processes) && Counted(s) && Witnessed(s) && !q.ActivateRequest?
    requires Moves(s.job, q, s.world, r') && LeavesCleanly(s, r') && Ends(s, q, r')
    ensures Exclusive(r', s.processes) && Counted(s.(job := r'))
    ensures Witnessed(s.(job := r')) && Witnessed(s.(job := r', disturbed := false))
  {
    if q.PlanReissueRequest? {
      var a :| r'.archives == s.job.archives + [a] && Current(s.job) == Some(a.cleanup.process);
    }
  }

  lemma ActivationKeepsRest(s: System, p: ProcessId, r': Record)
    requires Exclusive(s.job, s.processes) && Counted(s) && Witnessed(s) && Current(s.job).None?
    requires Alive(s.processes, p) && !s.processes[p].activated
    requires Moves(s.job, ActivateRequest(p), s.world, r')
    ensures var ps' := s.processes[p := s.processes[p].(activated := true)];
      Exclusive(r', ps') && Counted(s.(job := r', processes := ps')) && Witnessed(s.(job := r', processes := ps'))
  {
  }

  // ----- Hosts and processes -----

  /** Changing one host and one process it owns leaves every other host's knowledge true. */
  lemma UpdateKeepsKnowledge(ps: seq<Process>, hosts: seq<Host>, h: nat, host: Host, p: ProcessId, process: Process)
    requires AllKnow(ps, hosts) && h < |hosts| && p < |ps|
    requires process.owner == ps[p].owner
    requires ps[p].owner == h || (process.activated == ps[p].activated && process.asked == ps[p].asked)
    requires Knows(ps[p := process], host, h)
    ensures AllKnow(ps[p := process], hosts[h := host])
  {
    var ps', hosts' := ps[p := process], hosts[h := host];
    forall k | 0 <= k < |hosts'|
      ensures Knows(ps', hosts'[k], k)
    {
      assert Knows(ps, hosts[k], k);
    }
  }

  /** A change to a process that keeps who owns, activated and asked it. */
  lemma ProcessKeepsKnowledge(ps: seq<Process>, hosts: seq<Host>, p: ProcessId, process: Process)
    requires AllKnow(ps, hosts) && p < |ps|
    requires process.owner == ps[p].owner && process.activated == ps[p].activated && process.asked == ps[p].asked
    ensures AllKnow(ps[p := process], hosts)
  {
    forall k | 0 <= k < |hosts|
      ensures Knows(ps[p := process], hosts[k], k)
    {
      assert Knows(ps, hosts[k], k);
    }
  }

  lemma HostKeepsKnowledge(ps: seq<Process>, hosts: seq<Host>, h: nat, host: Host)
    requires AllKnow(ps, hosts) && h < |hosts| && Knows(ps, host, h)
    ensures AllKnow(ps, hosts[h := host])
  {
  }

  lemma SpawnKeepsKnowledge(ps: seq<Process>, hosts: seq<Host>, h: nat, process: Process)
    requires AllKnow(ps, hosts) && h < |hosts| && process.owner == h && !process.activated
    ensures AllKnow(ps + [process], hosts[h := hosts[h].(phase := Spawned(|ps|))])
  {
    var ps', hosts' := ps + [process], hosts[h := hosts[h].(phase := Spawned(|ps|))];
    forall k | 0 <= k < |hosts'|
      ensures Knows(ps', hosts'[k], k)
    {
      assert Knows(ps, hosts[k], k);
    }
  }

  // ----- Every step -----

  /** Any change of processes that starts, activates and asks none of them keeps what counts. */
  predicate Weaker(q: Process, p: Process) {
    && q.owner == p.owner && q.activated == p.activated && q.asked == p.asked
    && (q.alive ==> p.alive) && (p.landed ==> q.landed)
    && (q.answer.Some? || q.landed ==> p.asked)
  }

  lemma WeakerKeepsRest(s: System, p: ProcessId, process: Process)
    requires Exclusive(s.job, s.processes) && Counted(s) && p < |s.processes| && Weaker(process, s.processes[p])
    ensures Exclusive(s.job, s.processes[p := process]) && Counted(s.(processes := s.processes[p := process]))
  {
  }

  /** The effect of the one controller that may still land uses up the room that is left. */
  lemma LandingKeepsRest(s: System, p: ProcessId, effect: World, process: Process)
    requires Exclusive(s.job, s.processes) && Counted(s) && CanAnswer(s.processes, p) && !Absent(effect)
    requires Weaker(process, s.processes[p]) && process.landed
    ensures var ps' := s.processes[p := process];
      Exclusive(s.job, ps') && Counted(s.(processes := ps', world := effect, landings := s.landings + 1))
  {
    assert Current(s.job) == Some(p);
  }

  lemma AskingKeepsRest(s: System, p: ProcessId)
    requires Exclusive(s.job, s.processes) && Counted(s)
    requires Alive(s.processes, p) && s.processes[p].activated && !s.processes[p].asked
    ensures var ps' := s.processes[p := s.processes[p].(asked := true)];
      Exclusive(s.job, ps') && Counted(s.(processes := ps', asks := s.asks + 1))
  {
    assert Current(s.job) == Some(p);
  }

  /** The host of an activated controller names it as the provisioner of the journal it saw. */
  lemma OwnerHoldsCurrent(r: Record, ps: seq<Process>, host: Host, h: nat, p: ProcessId)
    requires Staged(r) && Owns(ps, host, h, p) && host.seen == r.journal && r.journal.state.Provisioning?
    ensures Current(r) == Some(p)
  {
  }

  /** All that the rest of the invariant needs to know about an accepted request. */
  ghost predicate Accepted(s: System, h: nat, q: Request, r': Record)
    requires h < |s.hosts|
  {
    && (q.ActivateRequest? ==> Current(s.job).None?)
    && Moves(s.job, q, s.world, r') && LeavesCleanly(s, r') && Ends(s, q, r')
  }

  lemma SettledWasNotAsked(s: System, h: nat, q: Request, r': Record)
    requires Staged(s.job) && Exclusive(s.job, s.processes) && h < |s.hosts| && Knows(s.processes, s.hosts[h], h)
    requires Permitted(s, h, q) && q.SettleRequest?
    requires Commit(s.job, s.hosts[h].seen, s.hosts[h].actor, q, s.world) == Some(r')
    ensures !CurrentAsked(r', s.processes)
  {
    if s.job.journal.state.Provisioning? && s.hosts[h].phase.Active? {
      OwnerHoldsCurrent(s.job, s.processes, s.hosts[h], h, s.hosts[h].phase.p);
    }
  }

  lemma SentIsAccepted(s: System, h: nat, q: Request, r': Record)
    requires Staged(s.job) && Evidenced(s.job) && Exclusive(s.job, s.processes)
    requires h < |s.hosts| && Knows(s.processes, s.hosts[h], h) && Permitted(s, h, q)
    requires Commit(s.job, s.hosts[h].seen, s.hosts[h].actor, q, s.world) == Some(r')
    ensures Accepted(s, h, q, r')
  {
    CommitMoves(s.job, s.hosts[h].seen, s.hosts[h].actor, q, s.world);
    PermittedLeavesCleanly(s, h, q, r');
    if q.SettleRequest? {
      SettledWasNotAsked(s, h, q, r');
    }
  }

  lemma AppliedHostKnows(s: System, h: nat, q: Request, r': Record)
    requires h < |s.hosts| && Knows(s.processes, s.hosts[h], h) && Permitted(s, h, q)
    requires Exclusive(s.job, s.processes)
    requires Commit(s.job, s.hosts[h].seen, s.hosts[h].actor, q, s.world) == Some(r')
    ensures var s' := Applied(s, h, q, r'); Knows(s'.processes, s'.hosts[h], h)
  {
  }

  /** A durable request keeps the invariant whether it is accepted or refused. */
  lemma SentKeepsInv(s: System, h: nat, q: Request)
    requires Inv(s) && h < |s.hosts| && Permitted(s, h, q)
    ensures Inv(Sent(s, h, q))
  {
    var host := s.hosts[h];
    var accepted := Commit(s.job, host.seen, host.actor, q, s.world);
    if accepted.Some? {
      var r' := accepted.value;
      CommitKeepsConsistent(s.job, host.seen, host.actor, q, s.world);
      AcceptedKeepsTied(s, h, q, r');
    }
  }

  lemma AcceptedKeepsTied(s: System, h: nat, q: Request, r': Record)
    requires Inv(s) && h < |s.hosts| && Permitted(s, h, q)
    requires Commit(s.job, s.hosts[h].seen, s.hosts[h].actor, q, s.world) == Some(r')
    ensures Tied(Applied(s, h, q, r'))
  {
    assert Knows(s.processes, s.hosts[h], h);
    SentIsAccepted(s, h, q, r');
    AppliedHostKnows(s, h, q, r');
    AppliedKeepsTied(s, h, q, r');
  }

  lemma AppliedKeepsTied(s: System, h: nat, q: Request, r': Record)
    requires Tied(s) && h < |s.hosts| && Permitted(s, h, q)
    requires Accepted(s, h, q, r')
    requires var s' := Applied(s, h, q, r'); Knows(s'.processes, s'.hosts[h], h)
    ensures Tied(Applied(s, h, q, r'))
  {
    var s' := Applied(s, h, q, r');
    if q.ActivateRequest? {
      var p := q.process;
      assert Knows(s.processes, s.hosts[h], h);
      ActivationKeepsRest(s, p, r');
      UpdateKeepsKnowledge(s.processes, s.hosts, h, s'.hosts[h], p, s'.processes[p]);
    } else {
      MovesKeepRest(s, q, r');
      HostKeepsKnowledge(s.processes, s.hosts, h, s'.hosts[h]);
    }
  }

  /** Every step of every actor keeps the invariant. */
  lemma ExecKeepsInv(s: System, step: Step)
    requires Inv(s)
    ensures Inv(Exec(s, step))
  {
    match step
    case Send(h, q) => if Live(s, h) && Permitted(s, h, q) { SentKeepsInv(s, h, q); }
    case _ => OtherStepKeepsTied(s, step);
  }

  lemma OtherStepKeepsTied(s: System, step: Step)
    requires Tied(s) && !step.Send?
    ensures Tied(Exec(s, step)) && Exec(s, step).job == s.job
  {
    if Exec(s, step) == s {
    } else if step.Land? || step.AnswerOnly? || step.Die? || step.Disturb? {
      OutsideStepKeepsTied(s, step);
    } else {
      HostStepKeepsTied(s, step);
    }
  }

  /** A host that only changes its phase, to one that knows no more. */
  lemma PhaseKeepsTied(s: System, h: nat, phase: Phase)
    requires Tied(s) && h < |s.hosts| && Knows(s.processes, s.hosts[h].(phase := phase), h)
    ensures Tied(InPhase(s, h, phase))
  {
    HostKeepsKnowledge(s.processes, s.hosts, h, s.hosts[h].(phase := phase));
  }

  lemma PhaseStepKeepsTied(s: System, step: Step)
    requires Tied(s) && Exec(s, step) != s
    requires step.Crash? || step.CheckParent? || step.SpawnFails? || step.HearAnswer?
    ensures Tied(Exec(s, step)) && Exec(s, step).job == s.job
  {
    match step
    case Crash(h) => PhaseKeepsTied(s, h, Gone);
    case CheckParent(h) => PhaseKeepsTied(s, h, Cleared);
    case SpawnFails(h) => PhaseKeepsTied(s, h, Unspawned);
    case HearAnswer(h) =>
      assert Knows(s.processes, s.hosts[h], h);
      PhaseKeepsTied(s, h, Exec(s, step).hosts[h].phase);
  }

  lemma SpawnKeepsTied(s: System, h: nat)
    requires Tied(s) && h < |s.hosts|
    ensures Tied(Exec(s, SpawnController(h))) && Exec(s, SpawnController(h)).job == s.job
  {
    var s' := Exec(s, SpawnController(h));
    if s' != s {
      SpawnKeepsKnowledge(s.processes, s.hosts, h, s'.processes[|s.processes|]);
    }
  }

  lemma HostStepKeepsTied(s: System, step: Step)
    requires Tied(s) && Exec(s, step) != s
    requires !step.Send? && !step.Land? && !step.AnswerOnly? && !step.Die? && !step.Disturb?
    ensures Tied(Exec(s, step)) && Exec(s, step).job == s.job
  {
    match step
    case Start =>
    case SpawnController(h) => SpawnKeepsTied(s, h);
    case PlaceGuard(h) =>
    case AskCreate(h) => AskKeepsTied(s, h);
    case KillController(h) => KillKeepsTied(s, Held(s.hosts[h].phase).value);
    case ClearGuard(h) =>
    case _ => PhaseStepKeepsTied(s, step);
  }

  lemma OutsideStepKeepsTied(s: System, step: Step)
    requires Tied(s) && Exec(s, step) != s
    requires step.Land? || step.AnswerOnly? || step.Die? || step.Disturb?
    ensures Tied(Exec(s, step)) && Exec(s, step).job == s.job
  {
    var s' := Exec(s, step);
    match step
    case Land(p, effect, answer) =>
      LandingKeepsRest(s, p, effect, s'.processes[p]);
      ProcessKeepsKnowledge(s.processes, s.hosts, p, s'.processes[p]);
    case AnswerOnly(p, answer) =>
      WeakerKeepsRest(s, p, s'.processes[p]);
      ProcessKeepsKnowledge(s.processes, s.hosts, p, s'.processes[p]);
    case Die(p) => KillKeepsTied(s, p);
    case Disturb(w) =>
  }

  lemma AskKeepsTied(s: System, h: nat)
    requires Tied(s) && h < |s.hosts| && s.hosts[h].phase.Guarded? && Alive(s.processes, s.hosts[h].phase.p)
    ensures Tied(Exec(s, AskCreate(h)))
  {
    var p := s.hosts[h].phase.p;
    var host, process := s.hosts[h].(phase := Asked(p)), s.processes[p].(asked := true);
    assert Knows(s.processes, s.hosts[h], h);
    AskingKeepsRest(s, p);
    UpdateKeepsKnowledge(s.processes, s.hosts, h, host, p, process);
  }

  lemma KillKeepsTied(s: System, p: ProcessId)
    requires Tied(s)
    ensures Tied(s.(processes := Killed(s.processes, p)))
  {
    if p < |s.processes| {
      var process := s.processes[p].(alive := false);
      WeakerKeepsRest(s, p, process);
      ProcessKeepsKnowledge(s.processes, s.hosts, p, process);
    }
  }

  lemma {:induction false} RunKeepsInv(s: System, steps: seq<Step>)
    requires Inv(s)
    ensures Inv(Run(s, steps))
    decreases |steps|
  {
    if steps != [] {
      ExecKeepsInv(s, steps[0]);
      RunKeepsInv(Exec(s, steps[0]), steps[1..]);
    }
  }

  lemma InitialInv(b: Binding, w: World)
    ensures Inv(Initial(b, w))
  {
  }

  // ----- Main results: what holds in every run -----

  /** How many of the steps of a run do `what`, which looks at a step and the state it meets. */
  function Count(s: System, steps: seq<Step>, what: (System, Step) -> bool): nat
    decreases |steps|
  {
    if steps == [] then 0 else (if what(s, steps[0]) then 1 else 0) + Count(Exec(s, steps[0]), steps[1..], what)
  }

  /** A controller's official create changes the bound path. */
  predicate Lands(s: System, step: Step) {
    step.Land? && Exec(s, step).world == step.effect && Exec(s, step) != s
  }

  /** Somebody outside the protocol makes a present effect disappear. */
  predicate Removes(s: System, step: Step) {
    && step.Disturb? && step.w == World(NoTree, 0, 0, 0, step.w.parentFingerprint)
    && s.world != World(NoTree, 0, 0, 0, s.world.parentFingerprint)
  }

  predicate Asks(s: System, step: Step) {
    step.AskCreate? && Exec(s, step) != s
  }

  lemma {:induction false} CountersCount(s: System, steps: seq<Step>)
    ensures Run(s, steps).landings == s.landings + Count(s, steps, Lands)
    ensures Run(s, steps).removals == s.removals + Count(s, steps, Removes)
    ensures Run(s, steps).asks == s.asks + Count(s, steps, Asks)
    decreases |steps|
  {
    if steps != [] {
      StepCounts(s, steps[0]);
      CountersCount(Exec(s, steps[0]), steps[1..]);
    }
  }

  lemma StepCounts(s: System, step: Step)
    ensures Exec(s, step).landings == s.landings + if Lands(s, step) then 1 else 0
    ensures Exec(s, step).removals == s.removals + if Removes(s, step) then 1 else 0
    ensures Exec(s, step).asks == s.asks + if Asks(s, step) then 1 else 0
  {
  }

  /**
   However many attempts, crashes and lost answers a run has, official creates change the bound path
   at most once more often than somebody outside the protocol made the effect there disappear; and
   no run sends more than three create requests.
   */
  lemma AtMostOneEffect(b: Binding, w: World, steps: seq<Step>)
    ensures var s := Run(Initial(b, w), steps);
      var lands, removes := Count(Initial(b, w), steps, Lands), Count(Initial(b, w), steps, Removes);
      && lands <= removes + 1
      && (s.world == World(NoTree, 0, 0, 0, s.world.parentFingerprint) ==> lands <= removes)
      && Count(Initial(b, w), steps, Asks) <= |s.job.archives| + 1 <= 3
  {
    InitialInv(b, w);
    RunKeepsInv(Initial(b, w), steps);
    CountersCount(Initial(b, w), steps);
    CountsAreBounded(Run(Initial(b, w), steps));
  }

  lemma CountsAreBounded(s: System)
    requires Counted(s) && Chained(s.job)
    ensures s.landings <= s.removals + 1 && (Absent(s.world) ==> s.landings <= s.removals)
    ensures s.asks <= |s.job.archives| + 1 <= 3
  {
  }

  /** The archive proves that nothing was at the bound path and that its controller, which is dead, left no guard. */
  predicate ProvenAbsent(ps: seq<Process>, a: Archive) {
    && a.absence == World(NoTree, 0, 0, 0, a.absence.parentFingerprint)
    && a.cleanup == CleanupProof(a.cleanup.process, true, true) && a.intent.process == Some(a.cleanup.process)
    && a.cleanup.process < |ps| && !ps[a.cleanup.process].alive
  }

  lemma ArchivesProveAbsence(r: Record, ps: seq<Process>, a: Archive)
    requires Chained(r) && Exclusive(r, ps) && a in r.archives
    ensures ProvenAbsent(ps, a)
  {
    var k :| 0 <= k < |r.archives| && r.archives[k] == a;
    assert GoodArchive(r.archives[k], k);
    assert NamedAndDead(ps, a.cleanup.process);
  }

  lemma AskingIsExclusive(s: System, h: nat)
    requires Fenced(s.job) && Tied(s) && Exec(s, AskCreate(h)) != s
    ensures h < |s.hosts| && s.hosts[h].phase.Guarded?
    ensures var p := s.hosts[h].phase.p;
      && p < |s.processes| && !s.processes[p].asked && Current(s.job) == Some(p)
      && s.job.intent.value.fence == |s.job.archives| + 1
      && (forall q :: 0 <= q < |s.processes| && q != p && s.processes[q].activated ==> !s.processes[q].alive)
      && (s.job.archives != [] ==> s.world == World(NoTree, 0, 0, 0, s.world.parentFingerprint))
      && s.landings <= s.removals
  {
    assert Knows(s.processes, s.hosts[h], h);
  }

  /**
   When a create request goes out, its controller is the current attempt's and has not been asked
   before; every other activated controller is dead; every earlier attempt is archived with a proof
   that neither the files nor any registration existed, which holds again at that moment; and no
   earlier effect is unaccounted for.
   */
  lemma CreateOnlyAfterAbsence(b: Binding, w: World, steps: seq<Step>, h: nat)
    requires var s := Run(Initial(b, w), steps); Exec(s, AskCreate(h)) != s
    ensures var s := Run(Initial(b, w), steps);
      && h < |s.hosts| && s.hosts[h].phase.Guarded?
      && var p := s.hosts[h].phase.p;
      && p < |s.processes| && !s.processes[p].asked
      && Current(s.job) == Some(p)
      && s.job.intent.value.fence == |s.job.archives| + 1
      && (forall q :: 0 <= q < |s.processes| && q != p && s.processes[q].activated ==> !s.processes[q].alive)
      && (forall a :: a in s.job.archives ==> ProvenAbsent(s.processes, a))
      && (s.job.archives != [] ==> s.world == World(NoTree, 0, 0, 0, s.world.parentFingerprint))
      && s.landings <= s.removals
  {
    InitialInv(b, w);
    RunKeepsInv(Initial(b, w), steps);
    var s := Run(Initial(b, w), steps);
    AskingIsExclusive(s, h);
    forall a | a in s.job.archives
      ensures ProvenAbsent(s.processes, a)
    {
      ArchivesProveAbsence(s.job, s.processes, a);
    }
  }

  /**
   In every run, `Ready` means: unless somebody else touched it since it was verified, the bound path holds
   the clean checkout of the base commit, registered and linked exactly once, under the parent checkout as
   admitted; exactly one of an official receipt that says `created`, for that path and commit, and a host
   adoption justifies it; the attempt's controller is proven gone, and no activated controller lives.
   */
  lemma ReadyIsJustified(b: Binding, w: World, steps: seq<Step>)
    requires Run(Initial(b, w), steps).job.journal.state.Ready?
    ensures var s := Run(Initial(b, w), steps);
      && (s.disturbed
          || s.world == World(Checkout(b.executionRoot, b.baseCommit, true), 1, s.world.parentRegistrations, 1, b.parentFingerprint))
      && (s.job.receipt.Some? <==> s.job.adoption.None?)
      && s.job.intent.Some? && s.job.intent.value.process.Some?
      && s.job.cleanup == Some(CleanupProof(s.job.intent.value.process.value, true, true))
      && var i := s.job.intent.value;
      && (s.job.receipt.Some? ==>
            s.job.receipt.value == Receipt(
              i.operation, Response(Created, i.operation, b.executionRoot, b.controlRoot, b.baseCommit), i.executable))
      && (s.job.adoption.Some? ==>
            && s.job.adoption.value.operation == i.operation && s.job.adoption.value.executable == i.executable
            && s.job.adoption.value.cleanup == s.job.cleanup.value && s.job.adoption.value.journal.state.CleanupPending?
            && s.job.journal.previous == Some(s.job.adoption.value.journal))
      && s.guard.None?
      && (forall p :: 0 <= p < |s.processes| && s.processes[p].activated ==> !s.processes[p].alive)
  {
    InitialInv(b, w);
    RunKeepsInv(Initial(b, w), steps);
    RunKeepsBinding(Initial(b, w), steps);
  }

  /** Provisioning never creates launch materials; only the separate launch request does. */
  lemma {:induction false} OnlyLaunchRequestsLaunch(s: System, steps: seq<Step>)
    requires s.job.launch.None?
    requires forall step :: step in steps ==> !(step.Send? && step.q.LaunchRequest?)
    ensures Run(s, steps).job.launch.None?
    decreases |steps|
  {
    if steps != [] {
      ExecLaunchesNothing(s, steps[0]);
      OnlyLaunchRequestsLaunch(Exec(s, steps[0]), steps[1..]);
    }
  }

  lemma ExecLaunchesNothing(s: System, step: Step)
    requires s.job.launch.None? && !(step.Send? && step.q.LaunchRequest?)
    ensures Exec(s, step).job.launch.None?
  {
    if step.Send? && step.h < |s.hosts| {
      CommitLaunchesNothing(s.job, s.hosts[step.h].seen, s.hosts[step.h].actor, step.q, s.world);
    }
  }

  lemma CommitLaunchesNothing(r: Record, expected: Journal, actor: Option<Intent>, q: Request, seen: World)
    requires r.launch.None? && !q.LaunchRequest?
    ensures var accepted := Commit(r, expected, actor, q, seen);
      accepted.Some? ==> accepted.value.launch.None?
  {
  }

  /** A job that failed sent no create request in its last attempt, so failure hides no effect of it. */
  lemma FailedAttemptWasNeverAsked(b: Binding, w: World, steps: seq<Step>)
    requires Run(Initial(b, w), steps).job.journal.state.Failed?
    ensures var s := Run(Initial(b, w), steps);
      && !CurrentAsked(s.job, s.processes)
      && s.asks <= |s.job.archives|
  {
    InitialInv(b, w);
    RunKeepsInv(Initial(b, w), steps);
    FailedIsUnasked(Run(Initial(b, w), steps));
  }

  lemma FailedIsUnasked(s: System)
    requires Counted(s) && Witnessed(s) && s.job.journal.state.Failed?
    ensures !CurrentAsked(s.job, s.processes) && s.asks <= |s.job.archives|
  {
  }

  lemma {:induction false} RunKeepsBinding(s: System, steps: seq<Step>)
    ensures Run(s, steps).job.binding == s.job.binding
    decreases |steps|
  {
    if steps != [] {
      ExecKeepsBinding(s, steps[0]);
      RunKeepsBinding(Exec(s, steps[0]), steps[1..]);
    }
  }

  lemma ExecKeepsBinding(s: System, step: Step)
    ensures Exec(s, step).job.binding == s.job.binding
  {
    if step.Send? && step.h < |s.hosts| {
      CommitKeepsBinding(s.job, s.hosts[step.h].seen, s.hosts[step.h].actor, step.q, s.world);
    }
  }

  lemma CommitKeepsBinding(r: Record, expected: Journal, actor: Option<Intent>, q: Request, seen: World)
    ensures var accepted := Commit(r, expected, actor, q, seen);
      accepted.Some? ==> accepted.value.binding == r.binding
  {
  }

  /** A dirty, foreign, mismatched, occupied or absent effect never leads to `Ready`. */
  lemma OnlyVerifiedEffectsBecomeReady(s: System, step: Step)
    requires Inv(s) && !s.job.journal.state.Ready? && Exec(s, step).job.journal.state.Ready?
    ensures var b := s.job.binding;
      s.world == World(Checkout(b.executionRoot, b.baseCommit, true), 1, s.world.parentRegistrations, 1, b.parentFingerprint)
    ensures Exec(s, step).world == s.world && !Exec(s, step).disturbed
  {
    if step.Send? {
      OnlyVerifiedSendsBecomeReady(s, step.h, step.q);
    } else {
      OtherStepKeepsTied(s, step);
    }
  }

  lemma OnlyVerifiedSendsBecomeReady(s: System, h: nat, q: Request)
    requires Consistent(s.job) && h < |s.hosts|
    requires !s.job.journal.state.Ready? && Sent(s, h, q).job.journal.state.Ready?
    ensures Verified(s.job.binding, s.world) && Sent(s, h, q).world == s.world && !Sent(s, h, q).disturbed
  {
    ReadyOnlyWhenVerified(s.job, s.hosts[h].seen, s.hosts[h].actor, q, s.world);
  }

  /** Archive `k`, its place in the chain, and what it says about the attempt it replaced. */
  ghost predicate InChain(r: Record, k: nat)
    requires k < |r.archives|
  {
    var a := r.archives[k];
    && r.intent.Some? && r.intent.value.fence == |r.archives| + 1
    && Replaces(r.intent.value, a.intent)
    && (forall m :: 0 <= m < k ==> Replaces(a.intent, r.archives[m].intent))
    && a.intent.fence == k + 1 && a.ordinal == k + 1
    && a.previous == (if k == 0 then None else Some(r.archives[k - 1]))
    && a.journal.state.CleanupPending? && Ancestor(a.journal, r.journal)
    && a.intent.process == Some(a.cleanup.process) && a.cleanup.groupGone && a.cleanup.guardAbsent
    && a.absence == World(NoTree, 0, 0, 0, a.absence.parentFingerprint)
  }

  /** Same operation and release, and nothing else in common. */
  predicate Replaces(next: Intent, prior: Intent) {
    && next.operation == prior.operation && next.executable.release == prior.executable.release
    && next.attempt != prior.attempt && next.holder != prior.holder && next.spawn != prior.spawn
    && next.fence > prior.fence
  }

  lemma ChainedArchive(r: Record, k: nat)
    requires Chained(r) && Fenced(r) && k < |r.archives|
    ensures InChain(r, k)
  {
    assert GoodArchive(r.archives[k], k) && Linked(r.archives, k, r.journal);
    assert ContinuesAll(r.intent.value, r.archives);
    forall m | 0 <= m < k
      ensures Replaces(r.archives[k].intent, r.archives[m].intent)
    {
      assert r.archives[..k][m] == r.archives[m] && GoodArchive(r.archives[m], m);
    }
  }

  /**
   In every run the archives form one linked chain under one operation: archive `k` has fence `k + 1`,
   names its predecessor and its `cleanup_pending` journal, which the present journal descends from,
   and no two attempts share an attempt, holder or spawn identity.  The present attempt's fence is one
   more than the number of archives.
   */
  lemma AttemptsAreChained(b: Binding, w: World, steps: seq<Step>, k: nat)
    requires k < |Run(Initial(b, w), steps).job.archives|
    ensures InChain(Run(Initial(b, w), steps).job, k)
  {
    InitialInv(b, w);
    RunKeepsInv(Initial(b, w), steps);
    ChainedArchive(Run(Initial(b, w), steps).job, k);
  }

  /**
   Crashes, controllers and outsiders never write the record: it changes only when a live host sends a
   request that is accepted on the very journal that the host last saw.
   */
  lemma OnlyAcceptedRequestsChangeTheRecord(s: System, step: Step)
    requires Exec(s, step).job != s.job
    ensures step.Send? && step.h < |s.hosts| && Live(s, step.h) && s.hosts[step.h].seen == s.job.journal
    ensures Commit(s.job, s.hosts[step.h].seen, s.hosts[step.h].actor, step.q, s.world) == Some(Exec(s, step).job)
  {
    if step.Send? && step.h < |s.hosts| && s.hosts[step.h].seen != s.job.journal {
      StaleCallersAreRefused(s.job, s.hosts[step.h].seen, s.hosts[step.h].actor, step.q, s.world);
    }
  }

  // ----- Replay in `Ready` -----

  /** Neither launch authorization nor somebody outside the protocol. */
  predicate ProvisionerStep(step: Step) {
    && !step.Disturb?
    && !(step.Send? && step.q.LaunchRequest?)
  }

  /** Every host from `from` on is dead or only read that the job is ready. */
  predicate OnlyReplaying(hosts: seq<Host>, from: nat) {
    forall h :: from <= h < |hosts| ==> hosts[h].phase.Gone? || (hosts[h].phase.Reading? && hosts[h].seen.state.Ready?)
  }

  predicate OwnedBefore(ps: seq<Process>, from: nat, limit: nat) {
    forall p :: from <= p < |ps| ==> ps[p].owner < limit
  }

  lemma ReadyRefuses(r: Record, expected: Journal, actor: Option<Intent>, q: Request, seen: World)
    requires r.journal.state.Ready? && !q.LaunchRequest?
    ensures Commit(r, expected, actor, q, seen).None?
  {
  }

  predicate Quiet(s: System, hosts: nat, processes: nat) {
    && hosts <= |s.hosts| && processes <= |s.processes|
    && OnlyReplaying(s.hosts, hosts) && OwnedBefore(s.processes, processes, hosts)
  }

  lemma ReadySend(s: System, step: Step)
    requires s.job.journal.state.Ready? && step.Send? && !step.q.LaunchRequest?
    ensures Exec(s, step) == s
  {
    if step.h < |s.hosts| {
      ReadyRefuses(s.job, s.hosts[step.h].seen, s.hosts[step.h].actor, step.q, s.world);
    }
  }

  /** In `Ready` no controller is asked or answers any more. */
  lemma ReadyIsIdle(s: System, step: Step)
    requires Exclusive(s.job, s.processes) && AllKnow(s.processes, s.hosts) && s.job.journal.state.Ready?
    requires step.AskCreate? || step.Land? || step.AnswerOnly? || step.PlaceGuard?
    ensures Exec(s, step) == s
  {
    if step.AskCreate? && step.h < |s.hosts| {
      assert Knows(s.processes, s.hosts[step.h], step.h);
    }
  }

  /** Hosts that only read that the job is ready do not go on to a controller. */
  lemma RestIsQuiet(s: System, step: Step, hosts: nat, processes: nat)
    requires s.job.journal.state.Ready? && Quiet(s, hosts, processes)
    requires !step.Send? && !step.AskCreate? && !step.Land? && !step.AnswerOnly? && !step.PlaceGuard? && !step.Disturb?
    ensures var s' := Exec(s, step);
      && s'.job == s.job && s'.world == s.world && s'.asks == s.asks && s'.landings == s.landings
      && Quiet(s', hosts, processes)
  {
  }

  lemma ReadyStep(s: System, step: Step, hosts: nat, processes: nat)
    requires Tied(s) && s.job.journal.state.Ready? && ProvisionerStep(step) && Quiet(s, hosts, processes)
    ensures var s' := Exec(s, step);
      && s'.job == s.job && s'.world == s.world && s'.asks == s.asks && s'.landings == s.landings
      && Quiet(s', hosts, processes)
  {
    if step.Send? {
      ReadySend(s, step);
    } else if step.AskCreate? || step.Land? || step.AnswerOnly? || step.PlaceGuard? {
      ReadyIsIdle(s, step);
    } else {
      RestIsQuiet(s, step, hosts, processes);
    }
  }

  /**
   Replaying a ready job: whatever hosts do from then on, stale ones included, the record, the world
   and the number of create requests stay as they are, and no host that started after the job became
   ready starts a controller.
   */
  lemma {:induction false} ReadyReplayChangesNothing(s: System, steps: seq<Step>, hosts: nat, processes: nat)
    requires Inv(s) && s.job.journal.state.Ready?
    requires forall step :: step in steps ==> ProvisionerStep(step)
    requires Quiet(s, hosts, processes)
    ensures var s' := Run(s, steps);
      && s'.job == s.job && s'.world == s.world && s'.asks == s.asks && s'.landings == s.landings
      && Quiet(s', hosts, processes)
    decreases |steps|
  {
    if steps != [] {
      ExecKeepsInv(s, steps[0]);
      ReadyStep(s, steps[0], hosts, processes);
      ReadyReplayChangesNothing(Exec(s, steps[0]), steps[1..], hosts, processes);
    }
  }
}
