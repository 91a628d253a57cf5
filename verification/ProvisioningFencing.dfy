/** Fencing over whole runs: how identities, fences and views of the journal develop. */
module ProvisioningFencing {
  import opened Wrappers
  import opened ProvisioningRecord
  import opened ProvisioningSystem
  import opened ProvisioningSafety

  // ----- Views of the journal -----

  /** A view is the present journal or an older revision. */
  predicate DatedView(seen: Journal, journal: Journal) {
    seen.revision < journal.revision || seen == journal
  }

  predicate Dated(s: System) {
    forall h :: 0 <= h < |s.hosts| ==> DatedView(s.hosts[h].seen, s.job.journal)
  }

  predicate Stale(s: System, h: nat) {
    h < |s.hosts| && s.hosts[h].seen.revision < s.job.journal.revision
  }

  lemma CommitAdvances(r: Record, expected: Journal, actor: Option<Intent>, q: Request, seen: World)
    requires Commit(r, expected, actor, q, seen).Some?
    ensures var r' := Commit(r, expected, actor, q, seen).value;
      r'.journal == r.journal || r'.journal.revision > r.journal.revision
  {
  }

  lemma SentKeepsDated(s: System, h: nat, q: Request)
    requires Dated(s) && h < |s.hosts|
    ensures Dated(Sent(s, h, q)) && DatedView(s.job.journal, Sent(s, h, q).job.journal)
  {
    var host := s.hosts[h];
    if Commit(s.job, host.seen, host.actor, q, s.world).Some? {
      CommitAdvances(s.job, host.seen, host.actor, q, s.world);
    }
  }

  lemma OthersKeepDated(s: System, step: Step)
    requires Dated(s) && !step.Send?
    ensures Dated(Exec(s, step)) && s.job == Exec(s, step).job
  {
  }

  lemma ExecKeepsDated(s: System, step: Step)
    requires Dated(s)
    ensures Dated(Exec(s, step)) && DatedView(s.job.journal, Exec(s, step).job.journal)
  {
    if !step.Send? {
      OthersKeepDated(s, step);
    } else if step.h < |s.hosts| {
      SentKeepsDated(s, step.h, step.q);
    }
  }

  lemma {:induction false} RunKeepsDated(s: System, steps: seq<Step>)
    requires Dated(s)
    ensures Dated(Run(s, steps)) && DatedView(s.job.journal, Run(s, steps).job.journal)
    decreases |steps|
  {
    if steps != [] {
      ExecKeepsDated(s, steps[0]);
      RunKeepsDated(Exec(s, steps[0]), steps[1..]);
    }
  }

  lemma StaleStaysStale(s: System, step: Step, h: nat)
    requires Dated(s) && Stale(s, h)
    ensures Stale(Exec(s, step), h)
  {
    ExecKeepsDated(s, step);
    if step.Send? && step.h == h {
      StaleCallersAreRefused(s.job, s.hosts[h].seen, s.hosts[h].actor, step.q, s.world);
    }
  }

  /**
   A host whose view fell behind is fenced out for good: however the run goes on, none of its requests is
   accepted any more.
   */
  lemma {:induction false} FencedOutForever(s: System, steps: seq<Step>, h: nat, q: Request)
    requires Dated(s) && Stale(s, h)
    ensures Stale(Run(s, steps), h) && Exec(Run(s, steps), Send(h, q)) == Run(s, steps)
    decreases |steps|
  {
    if steps == [] {
      StaleCallersAreRefused(s.job, s.hosts[h].seen, s.hosts[h].actor, q, s.world);
    } else {
      ExecKeepsDated(s, steps[0]);
      StaleStaysStale(s, steps[0], h);
      FencedOutForever(Exec(s, steps[0]), steps[1..], h, q);
    }
  }

  // ----- Identities and fences -----

  /** From `r` to `r'` the operation stayed, archives were only added, and the fence counts them. */
  predicate Succeeds(r: Record, r': Record) {
    && r.intent.Some? && r'.intent.Some?
    && r'.intent.value.operation == r.intent.value.operation
    && r.archives <= r'.archives
    && r'.intent.value.fence - r.intent.value.fence == |r'.archives| - |r.archives|
    && (r'.intent.value.fence == r.intent.value.fence ==> r'.intent.value.attempt == r.intent.value.attempt)
    && (r'.intent.value.fence > r.intent.value.fence ==>
          && r'.archives[|r.archives|].intent.attempt == r.intent.value.attempt
          && r'.archives[|r.archives|].intent.fence == r.intent.value.fence)
  }

  lemma CommitSucceeds(r: Record, expected: Journal, actor: Option<Intent>, q: Request, seen: World)
    requires r.intent.Some? && Commit(r, expected, actor, q, seen).Some?
    ensures Succeeds(r, Commit(r, expected, actor, q, seen).value)
  {
    OperationIsConstant(r, expected, actor, q, seen);
  }

  lemma SucceedsIsTransitive(a: Record, b: Record, c: Record)
    requires Succeeds(a, b) && Succeeds(b, c)
    ensures Succeeds(a, c)
  {
  }

  lemma ExecSucceeds(s: System, step: Step)
    requires s.job.intent.Some?
    ensures Succeeds(s.job, Exec(s, step).job)
  {
    if Exec(s, step).job != s.job {
      OnlyAcceptedRequestsChangeTheRecord(s, step);
      CommitSucceeds(s.job, s.hosts[step.h].seen, s.hosts[step.h].actor, step.q, s.world);
    }
  }

  /**
   Over every run the operation identity is constant and archives are only added; the fence grows by one
   for each; an unchanged fence means the same attempt, and a fence left behind is the one of the archived
   attempt.
   */
  lemma {:induction false} OperationAndFenceOverRuns(s: System, steps: seq<Step>)
    requires s.job.intent.Some?
    ensures Succeeds(s.job, Run(s, steps).job)
    decreases |steps|
  {
    if steps != [] {
      ExecSucceeds(s, steps[0]);
      OperationAndFenceOverRuns(Exec(s, steps[0]), steps[1..]);
      SucceedsIsTransitive(s.job, Exec(s, steps[0]).job, Run(s, steps).job);
    }
  }
}
