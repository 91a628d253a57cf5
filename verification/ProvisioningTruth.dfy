/** What hosts tell the record is true: receipts are answers that controllers gave, and proofs are facts. */
module ProvisioningTruth {
  import opened Wrappers
  import opened ProvisioningRecord
  import opened ProvisioningSystem
  import opened ProvisioningSafety
  import opened ProvisioningTable

  /** Controller `p` was asked and gave this answer. */
  predicate Gave(ps: seq<Process>, p: ProcessId, response: Response) {
    p < |ps| && ps[p].answer == Some(response)
  }

  predicate HostsHeard(ps: seq<Process>, hosts: seq<Host>) {
    forall h :: 0 <= h < |hosts| && hosts[h].phase.Told? ==> Gave(ps, hosts[h].phase.p, hosts[h].phase.response)
  }

  predicate ReceiptHeard(r: Record, ps: seq<Process>) {
    r.receipt.Some? ==> Current(r).Some? && Gave(ps, Current(r).value, r.receipt.value.response)
  }

  predicate Heard(s: System) {
    HostsHeard(s.processes, s.hosts) && ReceiptHeard(s.job, s.processes)
  }

  /** Answers are never taken back. */
  predicate AnswersStay(ps: seq<Process>, ps': seq<Process>) {
    |ps| <= |ps'| && forall p :: 0 <= p < |ps| && ps[p].answer.Some? ==> ps'[p].answer == ps[p].answer
  }

  lemma ExecKeepsAnswers(s: System, step: Step)
    ensures AnswersStay(s.processes, Exec(s, step).processes)
  {
  }

  lemma ExecHears(s: System, step: Step)
    requires HostsHeard(s.processes, s.hosts)
    ensures HostsHeard(Exec(s, step).processes, Exec(s, step).hosts)
  {
    var s' := Exec(s, step);
    ExecKeepsAnswers(s, step);
    forall h | 0 <= h < |s'.hosts| && s'.hosts[h].phase.Told?
      ensures Gave(s'.processes, s'.hosts[h].phase.p, s'.hosts[h].phase.response)
    {
      if h < |s.hosts| && s'.hosts[h] == s.hosts[h] {
        assert Gave(s.processes, s.hosts[h].phase.p, s.hosts[h].phase.response);
      }
    }
  }

  /** Only a receipt request writes a receipt, and none is dropped while its attempt is the current one. */
  lemma CommitKeepsReceipt(r: Record, expected: Journal, actor: Option<Intent>, q: Request, seen: World)
    requires Staged(r) && Evidenced(r) && Commit(r, expected, actor, q, seen).Some?
    ensures var r' := Commit(r, expected, actor, q, seen).value;
      if q.ReceiptRequest? then
        && r'.receipt.Some? && r'.receipt.value.response == q.response && Current(r') == Current(r)
        && r.journal == expected && r.journal.state.Provisioning?
      else r'.receipt == r.receipt && (r.receipt.Some? ==> Current(r') == Current(r))
  {
  }

  lemma SentHears(s: System, h: nat, q: Request)
    requires Inv(s) && Heard(s) && h < |s.hosts| && Permitted(s, h, q)
    ensures ReceiptHeard(Sent(s, h, q).job, s.processes)
  {
    var host := s.hosts[h];
    if Commit(s.job, host.seen, host.actor, q, s.world).Some? {
      CommitKeepsReceipt(s.job, host.seen, host.actor, q, s.world);
      if q.ReceiptRequest? {
        assert Knows(s.processes, host, h);
        OwnerHoldsCurrent(s.job, s.processes, host, h, host.phase.p);
      }
    }
  }

  lemma ExecKeepsHeard(s: System, step: Step)
    requires Inv(s) && Heard(s)
    ensures Heard(Exec(s, step))
  {
    ExecHears(s, step);
    ExecKeepsAnswers(s, step);
    if step.Send? {
      if Live(s, step.h) && Permitted(s, step.h, step.q) {
        SentHears(s, step.h, step.q);
      }
    } else {
      OtherStepKeepsTied(s, step);
    }
  }

  lemma {:induction false} RunKeepsHeard(s: System, steps: seq<Step>)
    requires Inv(s) && Heard(s)
    ensures Inv(Run(s, steps)) && Heard(Run(s, steps))
    decreases |steps|
  {
    if steps != [] {
      ExecKeepsInv(s, steps[0]);
      ExecKeepsHeard(s, steps[0]);
      RunKeepsHeard(Exec(s, steps[0]), steps[1..]);
    }
  }

  /** No receipt is invented: in every run it is the very answer that the asked controller of the attempt gave. */
  lemma NoReceiptIsInvented(b: Binding, w: World, steps: seq<Step>)
    requires Run(Initial(b, w), steps).job.receipt.Some?
    ensures var s := Run(Initial(b, w), steps);
      && s.job.intent.Some? && s.job.intent.value.process.Some?
      && var p := s.job.intent.value.process.value;
      && p < |s.processes| && s.processes[p].activated && s.processes[p].asked
      && s.processes[p].answer == Some(s.job.receipt.value.response)
  {
    InitialInv(b, w);
    RunKeepsHeard(Initial(b, w), steps);
  }

  // ----- Accepted claims -----

  /** Nobody runs who could still act on the bound path. */
  predicate Still(s: System) {
    s.guard == None && forall p :: 0 <= p < |s.processes| && s.processes[p].activated ==> !s.processes[p].alive
  }

  /** What is really the case when host `h` gets request `q` accepted. */
  ghost predicate True(s: System, h: nat, q: Request)
    requires h < |s.hosts|
  {
    var host := s.hosts[h];
    match q
    case PrepareRequest(_, _, _, _, _) => Still(s) && host.phase == Cleared
    case PlanReissueRequest(_, _, _, _) => Still(s) && host.phase == Cleared
    case ReauthorizeRequest(_, _, _) => Still(s) && (host.phase == Reading || host.phase == Cleared)
    case AdoptRequest(_) => Still(s) && host.phase == Reading
    case LaunchRequest => Still(s) && host.phase == Reading
    case ActivateRequest(p) =>
      && Still(s) && host.phase == Spawned(p)
      && p < |s.processes| && s.processes[p] == Process(h, true, false, false, false, None)
    case RegisterRequest =>
      && s.guard.Some? && s.guard == Current(s.job) && host.phase == Active(s.guard.value)
      && s.guard.value < |s.processes| && !s.processes[s.guard.value].asked && s.processes[s.guard.value].owner == h
    case ReceiptRequest(response) =>
      && Current(s.job).Some? && host.phase == Told(Current(s.job).value, response)
      && Current(s.job).value < |s.processes|
      && s.processes[Current(s.job).value].owner == h && s.processes[Current(s.job).value].answer == Some(response)
    case PromoteRequest(proof) =>
      && Still(s) && Current(s.job) == Some(proof.process) && host.phase == Receipted(proof.process)
      && s.job.receipt.Some? && s.job.receipt.value.response.status == Created
    case RetainRequest(proof) => Still(s) && Current(s.job) == Some(proof.process) && Held(host.phase) == Some(proof.process)
    case SettleRequest(proof) =>
      && Still(s) && !CurrentAsked(s.job, s.processes)
      && (if proof.None? then host.phase == Unspawned
          else
            && (host.phase == Spawned(proof.value.process) || host.phase == Active(proof.value.process))
            && proof.value.process < |s.processes| && !s.processes[proof.value.process].alive
            && s.job.intent.Some? && s.job.intent.value.status == Pending)
  }

  lemma ProgressIsTrue(s: System, h: nat, q: Request)
    requires Inv(s) && Heard(s) && h < |s.hosts| && Live(s, h) && Permitted(s, h, q)
    requires q.RegisterRequest? || q.ReceiptRequest? || q.ActivateRequest?
    requires Commit(s.job, s.hosts[h].seen, s.hosts[h].actor, q, s.world).Some?
    ensures True(s, h, q)
  {
    assert Knows(s.processes, s.hosts[h], h);
    if !q.ActivateRequest? {
      OwnerHoldsCurrent(s.job, s.processes, s.hosts[h], h, s.hosts[h].phase.p);
    }
  }

  lemma ProofIsTrue(s: System, h: nat, q: Request)
    requires Inv(s) && h < |s.hosts| && Permitted(s, h, q) && (q.PromoteRequest? || q.RetainRequest?)
    requires Commit(s.job, s.hosts[h].seen, s.hosts[h].actor, q, s.world).Some?
    ensures True(s, h, q)
  {
    assert Knows(s.processes, s.hosts[h], h);
  }

  lemma SettlementIsTrue(s: System, h: nat, q: Request)
    requires Inv(s) && h < |s.hosts| && Permitted(s, h, q) && q.SettleRequest?
    requires Commit(s.job, s.hosts[h].seen, s.hosts[h].actor, q, s.world).Some?
    ensures True(s, h, q)
  {
    assert Knows(s.processes, s.hosts[h], h);
    if s.hosts[h].phase.Active? && s.job.journal.state.Provisioning? {
      OwnerHoldsCurrent(s.job, s.processes, s.hosts[h], h, s.hosts[h].phase.p);
    }
  }

  lemma RecoveryIsTrue(s: System, h: nat, q: Request)
    requires Inv(s) && h < |s.hosts| && Permitted(s, h, q)
    requires q.PrepareRequest? || q.PlanReissueRequest? || q.ReauthorizeRequest? || q.AdoptRequest? || q.LaunchRequest?
    requires Commit(s.job, s.hosts[h].seen, s.hosts[h].actor, q, s.world).Some?
    ensures True(s, h, q)
  {
  }

  lemma AcceptedIsTrue(s: System, h: nat, q: Request)
    requires Inv(s) && Heard(s) && h < |s.hosts| && Live(s, h) && Permitted(s, h, q)
    requires Commit(s.job, s.hosts[h].seen, s.hosts[h].actor, q, s.world).Some?
    ensures True(s, h, q)
  {
    if q.PrepareRequest? || q.PlanReissueRequest? || q.ReauthorizeRequest? || q.AdoptRequest? || q.LaunchRequest? {
      RecoveryIsTrue(s, h, q);
    } else if q.PromoteRequest? || q.RetainRequest? {
      ProofIsTrue(s, h, q);
    } else if q.SettleRequest? {
      SettlementIsTrue(s, h, q);
    } else {
      ProgressIsTrue(s, h, q);
    }
  }

  lemma TrueIsPermitted(s: System, h: nat, q: Request)
    requires Inv(s) && h < |s.hosts| && True(s, h, q) && Accepts(s.job, s.hosts[h].seen, s.hosts[h].actor, q, s.world)
    ensures Permitted(s, h, q)
  {
  }

  /** No accepted request leaves the record as it was. */
  lemma AfterDiffers(r: Record, expected: Journal, actor: Option<Intent>, q: Request, seen: World)
    requires Accepts(r, expected, actor, q, seen)
    ensures After(r, q) != r
  {
    if r.intent.Some? {
      NewerJournal(r, q);
    }
  }

  lemma NewerJournal(r: Record, q: Request)
    requires r.intent.Some?
    ensures JournalAfter(r, q) == r.journal || JournalAfter(r, q).revision > r.journal.revision
    ensures !q.PrepareRequest? && !q.RegisterRequest? && !q.ReceiptRequest? && !q.LaunchRequest? ==>
      JournalAfter(r, q) != r.journal
  {
  }

  lemma SentChangesExactly(s: System, h: nat, q: Request)
    requires Consistent(s.job)
    ensures Exec(s, Send(h, q)).job != s.job <==>
      Live(s, h) && Permitted(s, h, q) && Accepts(s.job, s.hosts[h].seen, s.hosts[h].actor, q, s.world)
  {
    if h < |s.hosts| {
      CommitFollowsTheTable(s.job, s.hosts[h].seen, s.hosts[h].actor, q, s.world);
      if Accepts(s.job, s.hosts[h].seen, s.hosts[h].actor, q, s.world) {
        AfterDiffers(s.job, s.hosts[h].seen, s.hosts[h].actor, q, s.world);
      }
    }
  }

  lemma SendSucceedsExactly(s: System, h: nat, q: Request)
    requires Inv(s) && Heard(s)
    ensures Exec(s, Send(h, q)).job != s.job <==>
      && h < |s.hosts| && s.hosts[h].phase != Gone
      && Accepts(s.job, s.hosts[h].seen, s.hosts[h].actor, q, s.world) && True(s, h, q)
  {
    SentChangesExactly(s, h, q);
    if h < |s.hosts| && Accepts(s.job, s.hosts[h].seen, s.hosts[h].actor, q, s.world) {
      CommitFollowsTheTable(s.job, s.hosts[h].seen, s.hosts[h].actor, q, s.world);
      if Live(s, h) && Permitted(s, h, q) {
        AcceptedIsTrue(s, h, q);
      } else if Live(s, h) && True(s, h, q) {
        TrueIsPermitted(s, h, q);
      }
    }
  }

  /**
   In every run, a request of a host changes the record exactly when the host lives, its row of the protocol
   table fits what the host last saw, and what it says is so: controllers called dead are dead and unguarded,
   the activated one is the host's own and was never asked, and a response is its controller's answer.
   */
  lemma SendsSucceedExactly(b: Binding, w: World, steps: seq<Step>, h: nat, q: Request)
    ensures var s := Run(Initial(b, w), steps);
      Exec(s, Send(h, q)).job != s.job <==>
        && h < |s.hosts| && s.hosts[h].phase != Gone
        && Accepts(s.job, s.hosts[h].seen, s.hosts[h].actor, q, s.world) && True(s, h, q)
  {
    InitialInv(b, w);
    RunKeepsHeard(Initial(b, w), steps);
    SendSucceedsExactly(Run(Initial(b, w), steps), h, q);
  }

  // ----- What a step leaves alone -----

  /** The step of the program that follows an accepted request; after an end the host reads the record anew. */
  function Onward(phase: Phase, q: Request): Phase {
    match q
    case PrepareRequest(_, _, _, _, _) => Prepared
    case PlanReissueRequest(_, _, _, _) => Prepared
    case ReauthorizeRequest(_, _, _) => if phase == Reading then Claimed else Prepared
    case ActivateRequest(p) => Active(p)
    case RegisterRequest => if phase.Active? then Guarded(phase.p) else phase
    case ReceiptRequest(_) => if phase.Told? then Receipted(phase.p) else phase
    case _ => Reading
  }

  lemma AppliedIs(s: System, h: nat, q: Request, r': Record)
    requires h < |s.hosts|
    ensures Applied(s, h, q, r') == System(
      r', s.world,
      if q.ActivateRequest? && q.process < |s.processes|
      then s.processes[q.process := s.processes[q.process].(activated := true)] else s.processes,
      s.hosts[h := Host(r'.journal, r'.intent, Onward(s.hosts[h].phase, q))],
      s.guard, s.asks, s.landings, s.removals, s.disturbed && !q.PromoteRequest? && !q.AdoptRequest?)
  {
  }

  /** An accepted request changes the record, what its host remembers, and at most the mark of the activated controller. */
  lemma SendChangesOnly(s: System, h: nat, q: Request)
    requires Consistent(s.job) && Exec(s, Send(h, q)).job != s.job
    ensures var s' := Exec(s, Send(h, q));
      var r' := After(s.job, q);
      && h < |s.hosts|
      && s' == System(
           r', s.world,
           if q.ActivateRequest? && q.process < |s.processes|
           then s.processes[q.process := s.processes[q.process].(activated := true)] else s.processes,
           s.hosts[h := Host(r'.journal, r'.intent, Onward(s.hosts[h].phase, q))],
           s.guard, s.asks, s.landings, s.removals, s.disturbed && !q.PromoteRequest? && !q.AdoptRequest?)
  {
    CommitFollowsTheTable(s.job, s.hosts[h].seen, s.hosts[h].actor, q, s.world);
    AppliedIs(s, h, q, After(s.job, q));
  }

  /** The record is still what the host of a guarded or active controller saw, under an unchanged parent checkout. */
  predicate StillMine(s: System, h: nat, status: IntentStatus)
    requires h < |s.hosts|
  {
    && s.job.journal == s.hosts[h].seen && s.job.journal.state == Provisioning && s.job.launch == None
    && s.world.parentFingerprint == s.job.binding.parentFingerprint
    && s.job.intent.Some? && s.job.intent.value.status == status
  }

  lemma MineIsHeld(s: System, h: nat, status: IntentStatus)
    requires Inv(s) && h < |s.hosts| && (s.hosts[h].phase.Active? || s.hosts[h].phase.Guarded?)
    ensures HoldsAttempt(s, h, status) <==> StillMine(s, h, status)
  {
    assert Knows(s.processes, s.hosts[h], h);
    if StillMine(s, h, status) {
      OwnerHoldsCurrent(s.job, s.processes, s.hosts[h], h, s.hosts[h].phase.p);
    }
  }

  lemma Guards(s: System, h: nat)
    requires Inv(s) && h < |s.hosts|
    ensures Exec(s, PlaceGuard(h)) ==
      if s.hosts[h].phase.Active? && s.guard == None && StillMine(s, h, Pending)
      then s.(guard := Some(s.hosts[h].phase.p)) else s
  {
    if s.hosts[h].phase.Active? {
      MineIsHeld(s, h, Pending);
    }
  }

  /** In every run a guard is placed exactly while none stands and the record is still the pending attempt of the host. */
  lemma GuardsExactly(b: Binding, w: World, steps: seq<Step>, h: nat)
    requires h < |Run(Initial(b, w), steps).hosts|
    ensures var s := Run(Initial(b, w), steps);
      Exec(s, PlaceGuard(h)) ==
        if s.hosts[h].phase.Active? && s.guard == None && StillMine(s, h, Pending)
        then s.(guard := Some(s.hosts[h].phase.p)) else s
  {
    InitialInv(b, w);
    RunKeepsInv(Initial(b, w), steps);
    Guards(Run(Initial(b, w), steps), h);
  }

  /** What a create request needs: the living controller of the registered attempt, and for a reissue nothing at the path. */
  predicate MayAsk(s: System, h: nat)
    requires h < |s.hosts|
  {
    && s.hosts[h].phase.Guarded? && s.hosts[h].phase.p < |s.processes| && s.processes[s.hosts[h].phase.p].alive
    && StillMine(s, h, Registered)
    && (s.job.archives == [] || s.world == World(NoTree, 0, 0, 0, s.job.binding.parentFingerprint))
  }

  lemma Asking(s: System, h: nat)
    requires Inv(s) && h < |s.hosts|
    ensures Exec(s, AskCreate(h)) ==
      if MayAsk(s, h) then
        var p := s.hosts[h].phase.p;
        s.(hosts := s.hosts[h := s.hosts[h].(phase := Asked(p))],
           processes := s.processes[p := s.processes[p].(asked := true)], asks := s.asks + 1)
      else s
  {
    if s.hosts[h].phase.Guarded? {
      MineIsHeld(s, h, Registered);
    }
  }

  /** In every run a create request goes out exactly then, and only marks its controller as asked. */
  lemma AsksExactly(b: Binding, w: World, steps: seq<Step>, h: nat)
    requires h < |Run(Initial(b, w), steps).hosts|
    ensures var s := Run(Initial(b, w), steps);
      Exec(s, AskCreate(h)) ==
        if MayAsk(s, h) then
          var p := s.hosts[h].phase.p;
          s.(hosts := s.hosts[h := s.hosts[h].(phase := Asked(p))],
             processes := s.processes[p := s.processes[p].(asked := true)], asks := s.asks + 1)
        else s
  {
    InitialInv(b, w);
    RunKeepsInv(Initial(b, w), steps);
    Asking(Run(Initial(b, w), steps), h);
  }

  /** A call passes the gate exactly while nothing occupies the parent directory: before its first intent, or with its plan claimed. */
  lemma PassesTheGateExactly(s: System, h: nat)
    requires h < |s.hosts|
    ensures var phase, state := s.hosts[h].phase, s.hosts[h].seen.state;
      Exec(s, CheckParent(h)) ==
        if s.world.tree == NoTree && (phase == Claimed || (phase == Reading && (state == Planned || state == CleanupPending)))
        then s.(hosts := s.hosts[h := Host(s.hosts[h].seen, s.hosts[h].actor, Cleared)]) else s
  {
  }

  /**
   What nobody in the protocol controls: an asked controller that has not answered may put any effect at the
   path, or answer anything without one; any controller may die; and anybody may change the world.
   */
  lemma OutsidersActFreely(s: System, p: ProcessId, effect: World, answer: Response)
    requires p < |s.processes| && s.processes[p].alive
    ensures var x := s.processes[p];
      && (x.asked && !x.landed && x.answer == None && effect != World(NoTree, 0, 0, 0, effect.parentFingerprint) ==>
            Exec(s, Land(p, effect, answer)) == s.(
              world := effect, landings := s.landings + 1,
              processes := s.processes[p := Process(x.owner, true, x.activated, true, true, Some(answer))]))
      && (x.asked && !x.landed && x.answer == None ==>
            Exec(s, AnswerOnly(p, answer)) == s.(
              processes := s.processes[p := Process(x.owner, true, x.activated, true, false, Some(answer))]))
      && Exec(s, Die(p)) == s.(processes := s.processes[p := x.(alive := false)])
      && Exec(s, Disturb(effect)).world == effect && Exec(s, Disturb(effect)).job == s.job
  {
  }

  // ----- Guards -----

  /** The registered controller of the current attempt is guarded for as long as it lives. */
  predicate Covered(s: System) {
    (&& s.job.journal.state.Provisioning? && s.job.intent.Some? && s.job.intent.value.status.Registered?
     && Current(s.job).Some? && Alive(s.processes, Current(s.job).value)) ==> s.guard == Current(s.job)
  }

  lemma CommitCovers(r: Record, expected: Journal, actor: Option<Intent>, q: Request, seen: World)
    requires Consistent(r) && Commit(r, expected, actor, q, seen).Some?
    ensures var r' := Commit(r, expected, actor, q, seen).value;
      r'.journal.state.Provisioning? && r'.intent.Some? && r'.intent.value.status.Registered? ==>
        && Current(r') == Current(r) && r.journal.state.Provisioning?
        && (!q.RegisterRequest? ==> r.intent.Some? && r.intent.value.status.Registered?)
  {
  }

  lemma SentCovers(s: System, h: nat, q: Request)
    requires Inv(s) && Covered(s) && h < |s.hosts| && Permitted(s, h, q)
    ensures Covered(Sent(s, h, q))
  {
    var host := s.hosts[h];
    if Commit(s.job, host.seen, host.actor, q, s.world).Some? {
      CommitCovers(s.job, host.seen, host.actor, q, s.world);
      if q.RegisterRequest? && s.job.journal.state.Provisioning? {
        assert Knows(s.processes, host, h);
        OwnerHoldsCurrent(s.job, s.processes, host, h, host.phase.p);
      }
    }
  }

  lemma OtherStepCovers(s: System, step: Step)
    requires Tied(s) && Covered(s) && !step.Send?
    ensures Covered(Exec(s, step))
  {
    OtherStepKeepsTied(s, step);
  }

  lemma {:induction false} RunCovers(s: System, steps: seq<Step>)
    requires Inv(s) && Covered(s)
    ensures Inv(Run(s, steps)) && Covered(Run(s, steps))
    decreases |steps|
  {
    if steps != [] {
      var step := steps[0];
      ExecKeepsInv(s, step);
      if step.Send? {
        if Live(s, step.h) && Permitted(s, step.h, step.q) {
          SentCovers(s, step.h, step.q);
        }
      } else {
        OtherStepCovers(s, step);
      }
      RunCovers(Exec(s, step), steps[1..]);
    }
  }

  /** In every run the registered controller of a provisioning attempt is guarded while it lives: its guard goes only after it. */
  lemma LivingControllersAreGuarded(b: Binding, w: World, steps: seq<Step>)
    ensures var s := Run(Initial(b, w), steps);
      && (s.guard.Some? ==> s.job.journal.state == Provisioning && Current(s.job) == s.guard)
      && (s.job.intent.Some? && s.job.intent.value.status == Registered ==>
            forall p :: 0 <= p < |s.processes| && s.processes[p].activated && s.processes[p].alive ==> s.guard == Some(p))
  {
    InitialInv(b, w);
    RunCovers(Initial(b, w), steps);
  }

  // ----- Attempts without a child -----

  /** Host `h` wrote the plan that the record still holds, and the parent checkout is as admitted. */
  predicate Planning(s: System, h: nat) {
    && h < |s.hosts| && s.hosts[h].seen == s.job.journal && s.hosts[h].actor == s.job.intent && s.job.intent.Some?
    && (s.job.journal.state == Planned || s.job.journal.state == ReissuePlanned)
    && s.job.launch == None && s.world.parentFingerprint == s.job.binding.parentFingerprint
  }

  predicate FailedPlan(r: Record, r': Record) {
    && r'.journal.state == Failed && r'.journal.previous == Some(r.journal) && r'.journal.revision == r.journal.revision + 1
    && r.intent.Some? && r'.intent == Some(r.intent.value.(status := NoChild)) && r'.archives == r.archives
  }

  /** How host `h` stands when it may settle its plan: no controller could be created, or its child is dead. */
  predicate Childless(s: System, h: nat, proof: Option<CleanupProof>)
    requires h < |s.hosts|
  {
    match proof
    case None => s.hosts[h].phase == Unspawned
    case Some(p) =>
      && s.hosts[h].phase == Spawned(p.process) && p == CleanupProof(p.process, true, true)
      && p.process < |s.processes| && !s.processes[p.process].alive
  }

  lemma SettlesPlan(s: System, h: nat, proof: Option<CleanupProof>)
    requires Inv(s) && Heard(s) && Planning(s, h) && Childless(s, h, proof)
    ensures FailedPlan(s.job, Exec(s, Send(h, SettleRequest(proof))).job)
  {
    SendSucceedsExactly(s, h, SettleRequest(proof));
    SendChangesOnly(s, h, SettleRequest(proof));
  }

  /** In every run a plan whose controller cannot be created is settled as failed. */
  lemma FailedSpawnIsSettled(b: Binding, w: World, steps: seq<Step>, h: nat)
    requires Planning(Run(Initial(b, w), steps), h) && Run(Initial(b, w), steps).hosts[h].phase == Prepared
    ensures var s := Run(Initial(b, w), steps);
      FailedPlan(s.job, Exec(Exec(s, SpawnFails(h)), Send(h, SettleRequest(None))).job)
  {
    var s := Run(Initial(b, w), steps);
    InitialInv(b, w);
    RunKeepsHeard(Initial(b, w), steps);
    ExecKeepsInv(s, SpawnFails(h));
    ExecKeepsHeard(s, SpawnFails(h));
    SettlesPlan(Exec(s, SpawnFails(h)), h, None);
  }

  /** In every run a plan whose controller was created but never activated is settled as failed once it is killed. */
  lemma UnusedChildIsSettled(b: Binding, w: World, steps: seq<Step>, h: nat, p: ProcessId)
    requires Planning(Run(Initial(b, w), steps), h) && Run(Initial(b, w), steps).hosts[h].phase == Spawned(p)
    ensures var s := Run(Initial(b, w), steps);
      FailedPlan(s.job, Exec(Exec(s, KillController(h)), Send(h, SettleRequest(Some(CleanupProof(p, true, true))))).job)
  {
    var s := Run(Initial(b, w), steps);
    InitialInv(b, w);
    RunKeepsHeard(Initial(b, w), steps);
    ExecKeepsInv(s, KillController(h));
    ExecKeepsHeard(s, KillController(h));
    assert Knows(s.processes, s.hosts[h], h);
    SettlesPlan(Exec(s, KillController(h)), h, Some(CleanupProof(p, true, true)));
  }
}
