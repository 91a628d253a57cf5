/** Recovery: from which states, after every host and controller has died, a job can still become ready. */
module ProvisioningRecovery {
  import opened Wrappers
  import opened ProvisioningRecord
  import opened ProvisioningSystem
  import opened ProvisioningSafety
  import opened ProvisioningFencing
  import opened ProvisioningProgress

  /** Every host and controller has died. */
  predicate AllDead(s: System) {
    && (forall h :: 0 <= h < |s.hosts| ==> s.hosts[h].phase.Gone?)
    && (forall p :: 0 <= p < |s.processes| ==> !s.processes[p].alive)
  }

  /** A step that needs no foreign process and no create over something already there. */
  predicate Cooperative(s: System, step: Step) {
    match step
    case Disturb(_) => false
    case Land(_, effect, _) => Absent(s.world) && effect.parentFingerprint == s.world.parentFingerprint
    case _ => true
  }

  predicate CooperativeRun(s: System, steps: seq<Step>)
    decreases |steps|
  {
    steps != [] ==> Cooperative(s, steps[0]) && CooperativeRun(Exec(s, steps[0]), steps[1..])
  }

  predicate Reaches(s: System, steps: seq<Step>) {
    CooperativeRun(s, steps) && Run(s, steps).job.journal.state.Ready?
  }

  // ----- A new call -----

  lemma CallStartsOnCourse(s: System)
    requires Inv(s) && Dated(s) && Recoverable(s)
    ensures var s' := Exec(s, Start);
      OnCourse(s', |s.hosts|) && Remaining(s', |s.hosts|) <= 14
  {
    ExecKeepsInv(s, Start);
    ExecKeepsDated(s, Start);
  }

  /** No host is in the middle of a call with a current view. */
  predicate NobodyElse(s: System) {
    forall k :: 0 <= k < |s.hosts| ==>
      s.hosts[k].phase.Reading? || s.hosts[k].phase.Gone? || s.hosts[k].seen.revision < s.job.journal.revision
  }

  const MAX_STEPS: nat := 14

  /**
   A call on a recoverable job succeeds in every run without crashes of its own: once it and its controller
   have taken fourteen steps the job is ready, whatever stale or waiting hosts do in between.
   */
  lemma EveryCallRecovers(s: System, steps: seq<Step>)
    requires Inv(s) && Dated(s) && Recoverable(s) && NobodyElse(s)
    requires Proceeds(Exec(s, Start), |s.hosts|, steps)
    requires Work(Exec(s, Start), |s.hosts|, steps) >= MAX_STEPS
    ensures Run(Exec(s, Start), steps).job.journal.state.Ready?
  {
    CallStartsOnCourse(s);
    EveryRunRecovers(Exec(s, Start), |s.hosts|, steps);
  }

  /** Left to itself the program reaches `Ready` in no more steps than remain. */
  lemma {:induction false} ProgramReachesReady(s: System, h: nat) returns (steps: seq<Step>)
    requires OnCourse(s, h) && (s.job.journal.state.Ready? || Aside(s, h))
    ensures Proceeds(s, h, steps) && |steps| == Work(s, h, steps) <= Remaining(s, h)
    ensures Reaches(s, steps)
    decreases Remaining(s, h)
  {
    if s.job.journal.state.Ready? {
      steps := [];
    } else {
      var step := NextStep(s, h);
      NextStepIsProductive(s, h);
      ProductiveAdvances(s, h, step);
      SomethingRemains(s, h);
      var rest := ProgramReachesReady(Exec(s, step), h);
      steps := Prepend(s, h, step, rest);
    }
  }

  lemma Prepend(s: System, h: nat, step: Step, rest: seq<Step>) returns (steps: seq<Step>)
    requires Going(s, h) && !s.job.journal.state.Ready? && Productive(s, h, step)
    requires Proceeds(Exec(s, step), h, rest) && Reaches(Exec(s, step), rest)
    ensures steps == [step] + rest && Proceeds(s, h, steps) && Reaches(s, steps)
    ensures Work(s, h, steps) == 1 + Work(Exec(s, step), h, rest)
  {
    ProductiveIsCooperative(s, h, step);
    steps := [step] + rest;
    assert steps[1..] == rest;
  }

  lemma ProductiveIsCooperative(s: System, h: nat, step: Step)
    requires Going(s, h) && Productive(s, h, step) && !s.job.journal.state.Ready?
    ensures Cooperative(s, step)
  {
  }

  lemma RecoveryReachesReady(s: System) returns (steps: seq<Step>)
    requires Inv(s) && Dated(s) && Recoverable(s) && NobodyElse(s)
    ensures Reaches(s, steps) && |steps| <= MAX_STEPS + 1
  {
    CallStartsOnCourse(s);
    var rest := ProgramReachesReady(Exec(s, Start), |s.hosts|);
    steps := [Start] + rest;
    assert steps[1..] == rest;
  }

  // ----- The rest never gets there -----

  /** The bound path holds something that is not the exact worktree, or the parent has drifted. */
  predicate Blocked(s: System) {
    || s.world.parentFingerprint != s.job.binding.parentFingerprint
    || (!Absent(s.world) && !Exact(s.job.binding, s.world))
  }

  predicate Exhausted(s: System) {
    Absent(s.world) && |s.job.archives| >= MAX_ARCHIVES
  }

  /** No request of a host that has not prepared an attempt can lead on to `Ready`. */
  predicate Stranded(s: System) {
    var r := s.job;
    match r.journal.state
    case Planned => r.intent.Some?
    case CleanupPending => r.receipt.Some? || Exhausted(s)
    case Provisioning => true
    case Failed => true
    case _ => false
  }

  /** A plan whose bound path is taken: no call gets past the parent directory. */
  predicate Obstructed(s: System) {
    Opening(s.job) && !s.world.tree.NoTree?
  }

  predicate Before(host: Host, cleared: bool) {
    host.phase.Gone? || host.phase.Reading? || host.phase.Claimed? || (cleared && host.phase.Cleared?)
  }

  predicate AllBefore(s: System, cleared: bool) {
    forall h :: 0 <= h < |s.hosts| ==> Before(s.hosts[h], cleared)
  }

  predicate Doomed(s: System) {
    && !s.job.journal.state.Ready?
    && (Blocked(s) || (Stranded(s) && AllBefore(s, true)) || (Obstructed(s) && AllBefore(s, false)))
  }

  lemma DoomedRecord(s: System, h: nat, q: Request)
    requires Staged(s.job) && Evidenced(s.job) && Doomed(s) && Live(s, h) && Permitted(s, h, q)
    ensures Doomed(Sent(s, h, q))
  {
  }

  lemma BlockedOther(s: System, step: Step)
    requires Blocked(s) && !step.Send? && Cooperative(s, step)
    ensures Blocked(Exec(s, step)) && Exec(s, step).job == s.job
  {
  }

  /** Without an attempt under way nobody changes the world. */
  lemma IdleOther(s: System, step: Step, cleared: bool)
    requires Exclusive(s.job, s.processes) && AllBefore(s, cleared) && !step.Send? && Cooperative(s, step)
    requires cleared || (Opening(s.job) && !s.world.tree.NoTree?)
    ensures AllBefore(Exec(s, step), cleared) && Exec(s, step).job == s.job
    ensures s.job.journal.state.Provisioning? || Exec(s, step).world == s.world
  {
  }

  lemma DoomedOther(s: System, step: Step)
    requires Staged(s.job) && Tied(s) && Doomed(s) && !step.Send? && Cooperative(s, step)
    ensures Doomed(Exec(s, step))
  {
    if Blocked(s) {
      BlockedOther(s, step);
    } else {
      IdleOther(s, step, Stranded(s) && AllBefore(s, true));
    }
  }

  lemma {:induction false} DoomedForever(s: System, steps: seq<Step>)
    requires Inv(s) && Doomed(s) && CooperativeRun(s, steps)
    ensures !Run(s, steps).job.journal.state.Ready?
    decreases |steps|
  {
    if steps != [] {
      var step := steps[0];
      ExecKeepsInv(s, step);
      if !step.Send? {
        DoomedOther(s, step);
      } else if Live(s, step.h) && Permitted(s, step.h, step.q) {
        DoomedRecord(s, step.h, step.q);
      }
      DoomedForever(Exec(s, step), steps[1..]);
    }
  }

  lemma UnrecoverableIsDoomed(s: System)
    requires Inv(s) && AllDead(s) && !Recoverable(s)
    ensures Doomed(s)
  {
  }

  /**
   After every host and controller has died, the job can still become ready without anybody else
   touching the bound path exactly when the durable record and the world are recoverable.
   */
  lemma RecoverableExactlyWhenReadyIsReachable(s: System)
    requires Inv(s) && Dated(s) && AllDead(s)
    ensures Recoverable(s) <==> exists steps :: Reaches(s, steps)
  {
    if Recoverable(s) {
      var steps := RecoveryReachesReady(s);
    } else {
      UnrecoverableIsDoomed(s);
      forall steps | CooperativeRun(s, steps)
        ensures !Reaches(s, steps)
      {
        DoomedForever(s, steps);
      }
    }
  }

  // ----- Jobs that the code cannot recover -----

  lemma RunFrom(s: System, step: Step, rest: seq<Step>)
    ensures Run(s, [step] + rest) == Run(Exec(s, step), rest)
  {
    assert ([step] + rest)[1..] == rest;
  }

  /** `steps` lead from a fresh job to a dead one that never becomes ready, although nobody disturbed it. */
  predicate Strands(b: Binding, w: World, steps: seq<Step>) {
    var s := Run(Initial(b, w), steps);
    AllDead(s) && s.world == w && !s.disturbed && !Recoverable(s)
  }

  lemma StrandedNeverReady(b: Binding, w: World, steps: seq<Step>, more: seq<Step>)
    requires Strands(b, w, steps)
    ensures !Reaches(Run(Initial(b, w), steps), more)
  {
    InitialInv(b, w);
    RunKeepsInv(Initial(b, w), steps);
    RunKeepsDated(Initial(b, w), steps);
    RecoverableExactlyWhenReadyIsReachable(Run(Initial(b, w), steps));
  }

  const PREPARE := PrepareRequest(0, 0, 0, 0, Executable(0, 0))

  function Prepared(b: Binding, w: World): System {
    Initial(b, w).(
      job := Admitted(b).(intent := Some(Intent(0, 0, 1, 0, 0, Executable(0, 0), Pending, None))),
      hosts := [Host(Admitted(b).journal, Some(Intent(0, 0, 1, 0, 0, Executable(0, 0), Pending, None)), Phase.Prepared)])
  }

  lemma FirstSteps(b: Binding, w: World, rest: seq<Step>)
    requires Absent(w) && w.parentFingerprint == b.parentFingerprint
    ensures Run(Initial(b, w), [Start, CheckParent(0), Send(0, PREPARE)] + rest) == Run(Prepared(b, w), rest)
  {
    var s0 := Initial(b, w);
    var s1 := Exec(s0, Start);
    var s2 := Exec(s1, CheckParent(0));
    assert Exec(s2, Send(0, PREPARE)) == Prepared(b, w);
    assert [Start, CheckParent(0), Send(0, PREPARE)] + rest == [Start] + ([CheckParent(0)] + ([Send(0, PREPARE)] + rest));
    RunFrom(s0, Start, [CheckParent(0)] + ([Send(0, PREPARE)] + rest));
    RunFrom(s1, CheckParent(0), [Send(0, PREPARE)] + rest);
    RunFrom(s2, Send(0, PREPARE), rest);
  }

  /** A host that dies right after it prepared its intent leaves a plan that no later call retries. */
  lemma DeathAfterIntentStrands(b: Binding, w: World)
    requires Absent(w) && w.parentFingerprint == b.parentFingerprint
    ensures Strands(b, w, [Start, CheckParent(0), Send(0, PREPARE), Crash(0)])
    ensures Run(Initial(b, w), [Start, CheckParent(0), Send(0, PREPARE), Crash(0)]).job.journal.state.Planned?
  {
    FirstSteps(b, w, [Crash(0)]);
    RunFrom(Prepared(b, w), Crash(0), []);
    assert [Start, CheckParent(0), Send(0, PREPARE)] + [Crash(0)] == [Start, CheckParent(0), Send(0, PREPARE), Crash(0)];
  }

  const ACTIVATION := [SpawnController(0), Send(0, ActivateRequest(0))]
  const DEATH := [Crash(0), Die(0)]

  lemma SpawnThenActivate(b: Binding, w: World, rest: seq<Step>) returns (s: System)
    requires Absent(w) && w.parentFingerprint == b.parentFingerprint
    ensures Run(Prepared(b, w), ACTIVATION + rest) == Run(s, rest)
    ensures s.job.journal.state.Provisioning? && s.world == w && !s.disturbed && |s.hosts| == 1 && |s.processes| == 1
  {
    var s0 := Prepared(b, w);
    var s1 := Exec(s0, SpawnController(0));
    s := Exec(s1, Send(0, ActivateRequest(0)));
    assert ACTIVATION + rest == [SpawnController(0)] + ([Send(0, ActivateRequest(0))] + rest);
    RunFrom(s0, SpawnController(0), [Send(0, ActivateRequest(0))] + rest);
    RunFrom(s1, Send(0, ActivateRequest(0)), rest);
  }

  lemma EverybodyDies(s: System)
    requires |s.hosts| == 1 && |s.processes| == 1
    ensures var s' := Run(s, DEATH);
      AllDead(s') && s'.job == s.job && s'.world == s.world && s'.disturbed == s.disturbed
  {
    RunBoth(s, Crash(0), Die(0));
    HostDies(s);
    ControllerDies(Exec(s, Crash(0)));
  }

  lemma HostDies(s: System)
    requires |s.hosts| == 1
    ensures var s' := Exec(s, Crash(0));
      s' == s.(hosts := s'.hosts) && |s'.hosts| == 1 && s'.hosts[0].phase.Gone?
  {
  }

  lemma ControllerDies(s: System)
    requires |s.processes| == 1
    ensures var s' := Exec(s, Die(0));
      s' == s.(processes := s'.processes) && |s'.processes| == 1 && !s'.processes[0].alive
  {
  }

  lemma RunBoth(s: System, a: Step, b: Step)
    ensures Run(s, [a, b]) == Exec(Exec(s, a), b)
  {
    assert [a, b] == [a] + [b];
    RunFrom(s, a, [b]);
    RunFrom(Exec(s, a), b, []);
  }

  /** A host that dies while its journal says `provisioning` leaves a job that no later call settles. */
  lemma DeathWhileProvisioningStrands(b: Binding, w: World)
    requires Absent(w) && w.parentFingerprint == b.parentFingerprint
    ensures var steps := [Start, CheckParent(0), Send(0, PREPARE)] + (ACTIVATION + DEATH);
      Strands(b, w, steps) && Run(Initial(b, w), steps).job.journal.state.Provisioning?
  {
    FirstSteps(b, w, ACTIVATION + DEATH);
    var s := SpawnThenActivate(b, w, DEATH);
    EverybodyDies(s);
  }

  /** A fresh plan over a worktree that somebody put there is refused by every call, exact or not. */
  lemma TakenPlanIsRefused(b: Binding, w: World, w': World, more: seq<Step>)
    requires Verified(b, w')
    ensures var s := Run(Initial(b, w), [Disturb(w')]);
      && AllDead(s) && s.job == Admitted(b) && Found(s) && !Recoverable(s) && !Reaches(s, more)
  {
    InitialInv(b, w);
    RunKeepsInv(Initial(b, w), [Disturb(w')]);
    RunKeepsDated(Initial(b, w), [Disturb(w')]);
    RunFrom(Initial(b, w), Disturb(w'), []);
    assert [Disturb(w')] + [] == [Disturb(w')];
    RecoverableExactlyWhenReadyIsReachable(Run(Initial(b, w), [Disturb(w')]));
  }
}
