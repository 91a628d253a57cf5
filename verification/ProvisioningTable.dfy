/**
 The durable protocol as a table: when each request is accepted, and what each field of the record is
 afterwards.  It is written apart from the transitions, by field instead of by request, and leaves out every
 guard that a consistent record already meets; the theorem is that both say the same.
 */
module ProvisioningTable {
  import opened Wrappers
  import opened ProvisioningRecord

  /** The clean checkout of the base commit at the bound path, registered and linked once. */
  predicate ShowsWorktree(w: World, b: Binding) {
    w == World(Checkout(b.executionRoot, b.baseCommit, true), 1, w.parentRegistrations, 1, b.parentFingerprint)
  }

  predicate ShowsNothing(w: World, b: Binding) {
    w == World(NoTree, 0, 0, 0, b.parentFingerprint)
  }

  /** The requests of a call that already works on an attempt, which it must name. */
  predicate Addressed(q: Request) {
    q.ActivateRequest? || q.RegisterRequest? || q.ReceiptRequest? || q.PromoteRequest? || q.RetainRequest? || q.SettleRequest?
  }

  /** An intent with the identities of `i`, whatever else it says. */
  predicate Names(actor: Option<Intent>, i: Intent) {
    actor.Some? && actor == Some(Intent(
      actor.value.operation, i.attempt, i.fence, i.holder, i.spawn, actor.value.executable, actor.value.status, actor.value.process))
  }

  /** The attempts that were replaced. */
  function Earlier(r: Record): set<Intent> {
    set a | a in r.archives :: a.intent
  }

  /** The row of a request, for the stored attempt `i`. */
  predicate Fits(r: Record, i: Intent, q: Request, seen: World)
    requires r.intent == Some(i)
  {
    var state := r.journal.state;
    match q
    case PrepareRequest(_, _, _, _, _) => false
    case ActivateRequest(_) => state == Planned || state == ReissuePlanned
    case RegisterRequest => state == Provisioning && i.status == Pending
    case ReceiptRequest(response) =>
      && state == Provisioning && i.status == Registered && r.receipt == None && ShowsWorktree(seen, r.binding)
      && (response == Response(Created, i.operation, r.binding.executionRoot, r.binding.controlRoot, r.binding.baseCommit)
          || response == Response(Exists, i.operation, r.binding.executionRoot, r.binding.controlRoot, r.binding.baseCommit))
    case PromoteRequest(proof) =>
      && state == Provisioning && r.receipt != None && ShowsWorktree(seen, r.binding)
      && Some(proof.process) == i.process && proof == CleanupProof(proof.process, true, true)
    case RetainRequest(proof) =>
      && state == Provisioning && i.status == Registered
      && Some(proof.process) == i.process && proof == CleanupProof(proof.process, true, true)
    case SettleRequest(None) => state == Planned || state == ReissuePlanned
    case SettleRequest(Some(proof)) =>
      && proof == CleanupProof(proof.process, true, true)
      && (state == Planned || state == ReissuePlanned || (state == Provisioning && Some(proof.process) == i.process))
    case AdoptRequest(proof) =>
      state == CleanupPending && r.receipt == None && proof == r.cleanup && ShowsWorktree(seen, r.binding)
    case PlanReissueRequest(attempt, holder, spawn, executable) =>
      && state == CleanupPending && r.receipt == None && |r.archives| < 2 && ShowsNothing(seen, r.binding)
      && executable.release == i.executable.release
      && forall past :: past in Earlier(r) + {i} ==> attempt != past.attempt && holder != past.holder && spawn != past.spawn
    case ReauthorizeRequest(holder, spawn, executable) =>
      && state == ReissuePlanned
      && executable.release == i.executable.release && (holder, executable) != (i.holder, i.executable)
      && spawn != i.spawn && forall past :: past in Earlier(r) ==> holder != past.holder && spawn != past.spawn
    case LaunchRequest => state == Ready && ShowsWorktree(seen, r.binding)
  }

  /** When the record accepts a request: nobody has moved it or the parent checkout, and the row fits. */
  predicate Accepts(r: Record, expected: Journal, actor: Option<Intent>, q: Request, seen: World) {
    && expected == r.journal && r.launch == None && seen.parentFingerprint == r.binding.parentFingerprint
    && (if r.intent == None then q.PrepareRequest? && r.journal.state == Planned
        else (Addressed(q) ==> Names(actor, r.intent.value)) && Fits(r, r.intent.value, q, seen))
  }

  // ----- The record afterwards, field by field -----

  /** `j` with the given state, attempt, fence, controllers and archive, naming its predecessor. */
  function Successor(j: Journal, state: State, p: Option<Provisioner>, c: Option<Provisioner>): Journal {
    Journal(state, j.revision + 1, Some(j), j.attempt, j.fence, p, c, j.archive)
  }

  function JournalAfter(r: Record, q: Request): Journal
    requires r.intent.Some?
  {
    var j, i := r.journal, r.intent.value;
    match q
    case ActivateRequest(p) =>
      Journal(Provisioning, j.revision + 1, Some(j), Some(i.attempt), i.fence, Some(Provisioner(p, i.holder)),
              j.cleanupProvisioner, j.archive)
    case PromoteRequest(_) => Successor(j, Ready, None, j.cleanupProvisioner)
    case RetainRequest(_) => Successor(j, CleanupPending, None, j.provisioner)
    case SettleRequest(_) =>
      if j.state == Provisioning then Successor(Successor(j, CleanupPending, None, j.provisioner), Failed, None, j.provisioner)
      else Successor(j, Failed, j.provisioner, j.cleanupProvisioner)
    case AdoptRequest(_) => Successor(j, Ready, j.provisioner, None)
    case PlanReissueRequest(attempt, _, _, _) =>
      Journal(ReissuePlanned, j.revision + 1, Some(j), Some(attempt), |r.archives| + 2, j.provisioner, None,
              Some(Archived(r, World(NoTree, 0, 0, 0, r.binding.parentFingerprint))))
    case ReauthorizeRequest(_, _, _) => Successor(j, ReissuePlanned, j.provisioner, j.cleanupProvisioner)
    case _ => j
  }

  /** The attempt that a reissue replaces, with its journal, proofs and predecessor. */
  function Archived(r: Record, absence: World): Archive
    requires r.intent.Some?
  {
    Archive(|r.archives| + 1, if r.archives == [] then None else Some(r.archives[|r.archives| - 1]), r.journal, r.intent.value,
            if r.cleanup.Some? then r.cleanup.value else CleanupProof(0, false, false), absence)
  }

  function IntentAfter(i: Intent, archives: nat, q: Request): Intent {
    match q
    case ActivateRequest(p) => Intent(i.operation, i.attempt, i.fence, i.holder, i.spawn, i.executable, Pending, Some(p))
    case RegisterRequest => Intent(i.operation, i.attempt, i.fence, i.holder, i.spawn, i.executable, Registered, i.process)
    case PromoteRequest(_) => Intent(i.operation, i.attempt, i.fence, i.holder, i.spawn, i.executable, Settled, i.process)
    case AdoptRequest(_) => Intent(i.operation, i.attempt, i.fence, i.holder, i.spawn, i.executable, Settled, i.process)
    case SettleRequest(_) => Intent(i.operation, i.attempt, i.fence, i.holder, i.spawn, i.executable, NoChild, i.process)
    case PlanReissueRequest(attempt, holder, spawn, executable) =>
      Intent(i.operation, attempt, archives + 2, holder, spawn, executable, Pending, None)
    case ReauthorizeRequest(holder, spawn, executable) =>
      Intent(i.operation, i.attempt, i.fence, holder, spawn, executable, Pending, None)
    case _ => i
  }

  /** The whole record after an accepted request. */
  function After(r: Record, q: Request): Record {
    match r.intent
    case None =>
      if q.PrepareRequest? then
        Record(r.binding, r.journal, Some(Intent(q.operation, q.attempt, 1, q.holder, q.spawn, q.executable, Pending, None)),
               [], None, None, None, None)
      else r
    case Some(i) =>
      Record(
        r.binding,
        JournalAfter(r, q),
        Some(IntentAfter(i, |r.archives|, q)),
        if q.PlanReissueRequest? then r.archives + [Archived(r, World(NoTree, 0, 0, 0, r.binding.parentFingerprint))] else r.archives,
        if q.ReceiptRequest? then Some(Receipt(i.operation, q.response, i.executable)) else r.receipt,
        match q {
          case PromoteRequest(proof) => Some(proof)
          case RetainRequest(proof) => Some(proof)
          case SettleRequest(proof) => proof
          case PlanReissueRequest(_, _, _, _) => None
          case _ => r.cleanup
        },
        match q {
          case AdoptRequest(Some(proof)) => Some(Adoption(i.operation, i.spawn, i.executable, r.journal, proof))
          case _ => r.adoption
        },
        if q.LaunchRequest? then Some(Launch(i.operation)) else r.launch)
  }

  /** Continuing all archives means reusing nothing of the attempts they replaced. */
  lemma ContinuesTheEarlier(r: Record, next: Intent)
    requires Chained(r) && r.intent.Some? && next.operation == r.intent.value.operation
    requires next.executable.release == r.intent.value.executable.release
    ensures ContinuesAll(next, r.archives) <==>
      forall past :: past in Earlier(r) ==>
        next.attempt != past.attempt && next.holder != past.holder && next.spawn != past.spawn
    ensures forall past :: past in Earlier(r) ==> r.intent.value.attempt != past.attempt
  {
    assert ContinuesAll(r.intent.value, r.archives);
    assert forall k :: 0 <= k < |r.archives| ==> r.archives[k].intent in Earlier(r);
    forall past | past in Earlier(r)
      ensures Continues(r.intent.value, past)
      ensures ContinuesAll(next, r.archives) ==> Continues(next, past)
    {
      var k :| 0 <= k < |r.archives| && r.archives[k].intent == past;
    }
  }

  ghost predicate Follows(r: Record, expected: Journal, actor: Option<Intent>, q: Request, seen: World) {
    Commit(r, expected, actor, q, seen) == if Accepts(r, expected, actor, q, seen) then Some(After(r, q)) else None
  }

  lemma AddressedFollows(r: Record, expected: Journal, actor: Option<Intent>, q: Request, seen: World)
    requires Fenced(r) && Evidenced(r) && Staged(r) && Addressed(q)
    ensures Follows(r, expected, actor, q, seen)
  {
  }

  lemma PlanFollows(r: Record, expected: Journal, actor: Option<Intent>, q: Request, seen: World)
    requires Chained(r) && Fenced(r) && Staged(r) && q.PlanReissueRequest?
    ensures Follows(r, expected, actor, q, seen)
  {
    if r.intent.Some? && q.executable.release == r.intent.value.executable.release {
      var i := r.intent.value;
      ContinuesTheEarlier(r, Intent(i.operation, q.attempt, i.fence + 1, q.holder, q.spawn, q.executable, Pending, None));
    }
  }

  lemma ReauthorizationFollows(r: Record, expected: Journal, actor: Option<Intent>, q: Request, seen: World)
    requires Chained(r) && Fenced(r) && Staged(r) && q.ReauthorizeRequest?
    ensures Follows(r, expected, actor, q, seen)
  {
    if r.intent.Some? && q.executable.release == r.intent.value.executable.release {
      ContinuesTheEarlier(r, r.intent.value.(holder := q.holder, spawn := q.spawn, executable := q.executable));
    }
  }

  /** On every consistent record each request is accepted exactly by its row, and then changes exactly what the table says. */
  lemma CommitFollowsTheTable(r: Record, expected: Journal, actor: Option<Intent>, q: Request, seen: World)
    requires Consistent(r)
    ensures Commit(r, expected, actor, q, seen) == if Accepts(r, expected, actor, q, seen) then Some(After(r, q)) else None
  {
    if Addressed(q) {
      AddressedFollows(r, expected, actor, q, seen);
    } else if q.PlanReissueRequest? {
      PlanFollows(r, expected, actor, q, seen);
    } else if q.ReauthorizeRequest? {
      ReauthorizationFollows(r, expected, actor, q, seen);
    }
  }
}
