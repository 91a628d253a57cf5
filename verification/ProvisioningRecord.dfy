/**
 The durable record of one write worker's worktree provisioning: the immutable binding, the
 provisioning journal, the current attempt's intent and evidence, and the archives of earlier
 attempts.  Every durable transition is one function from a record to an optional record: `None`
 when the store refuses the request.

 A digest names exactly one value, so the model stores the value where the store keeps a digest.
 */
module ProvisioningRecord {
  import opened Wrappers

  /** One process instance: pid, start token and process group together. */
  type ProcessId = nat

  datatype Executable = Executable(identity: nat, release: nat)

  datatype Binding = Binding(
    worker: string,
    controlRoot: string,
    executionRoot: string,
    baseCommit: string,
    parentFingerprint: nat)

  datatype State =
    | Planned
    | Provisioning
    | Ready
    | CleanupPending
    | ReissuePlanned
    | Failed

  datatype Provisioner = Provisioner(process: ProcessId, holder: nat)

  datatype Journal = Journal(
    state: State,
    revision: nat,
    previous: Option<Journal>,
    attempt: Option<nat>,
    fence: nat,
    provisioner: Option<Provisioner>,
    cleanupProvisioner: Option<Provisioner>,
    archive: Option<Archive>)

  datatype IntentStatus = Pending | Registered | Settled | NoChild

  /** One authorization to start a controller; it has a process from its activation on. */
  datatype Intent = Intent(
    operation: nat,
    attempt: nat,
    fence: nat,
    holder: nat,
    spawn: nat,
    executable: Executable,
    status: IntentStatus,
    process: Option<ProcessId>)

  datatype CleanupProof = CleanupProof(process: ProcessId, groupGone: bool, guardAbsent: bool)

  /** An attempt that was replaced, with the journal, intent and proofs it was replaced on. */
  datatype Archive = Archive(
    ordinal: nat,
    previous: Option<Archive>,
    journal: Journal,
    intent: Intent,
    cleanup: CleanupProof,
    absence: World)

  datatype Tree =
    | NoTree
    | Checkout(root: string, head: string, clean: bool)
    | Occupied

  /** What Git and the filesystem show at the bound path, and the fingerprint of the parent checkout. */
  datatype World = World(
    tree: Tree,
    exactRegistrations: nat,
    parentRegistrations: nat,
    backlinks: nat,
    parentFingerprint: nat)

  datatype ResponseStatus = Created | Exists | Other

  datatype Response = Response(status: ResponseStatus, session: nat, root: string, source: string, commit: string)

  datatype Receipt = Receipt(operation: nat, response: Response, executable: Executable)

  datatype Adoption = Adoption(
    operation: nat, spawn: nat, executable: Executable, journal: Journal, cleanup: CleanupProof)

  /** The materials a model provider is started with; provisioning itself never holds them. */
  datatype Launch = Launch(operation: nat)

  datatype Record = Record(
    binding: Binding,
    journal: Journal,
    intent: Option<Intent>,
    archives: seq<Archive>,
    receipt: Option<Receipt>,
    cleanup: Option<CleanupProof>,
    adoption: Option<Adoption>,
    launch: Option<Launch>)

  const MAX_ARCHIVES: nat := 2

  // ----- Observed facts -----

  predicate Absent(w: World) {
    && w.tree == NoTree
    && w.exactRegistrations == 0
    && w.parentRegistrations == 0
    && w.backlinks == 0
  }

  predicate Exact(b: Binding, w: World) {
    && w.tree == Checkout(b.executionRoot, b.baseCommit, true)
    && w.exactRegistrations == 1
    && w.backlinks == 1
  }

  /** The host's own verification: the exact clean worktree, and an unchanged parent checkout. */
  predicate Verified(b: Binding, w: World) {
    Exact(b, w) && w.parentFingerprint == b.parentFingerprint
  }

  predicate Proves(proof: CleanupProof, i: Intent) {
    i.process == Some(proof.process) && proof.groupGone && proof.guardAbsent
  }

  /** The attempt, fence, holder and spawn identity that a caller must present. */
  predicate SameActor(presented: Option<Intent>, i: Intent) {
    && presented.Some?
    && presented.value.attempt == i.attempt
    && presented.value.fence == i.fence
    && presented.value.holder == i.holder
    && presented.value.spawn == i.spawn
  }

  /** Every durable request first needs the parent checkout unchanged and no provider dispatch. */
  predicate Intact(r: Record, seen: World) {
    seen.parentFingerprint == r.binding.parentFingerprint && r.launch.None?
  }

  // ----- Durable transitions -----

  function Admitted(b: Binding): Record {
    Record(b, Journal(Planned, 0, None, None, 0, None, None, None), None, [], None, None, None, None)
  }

  function Advance(j: Journal, state: State): Journal {
    j.(state := state, revision := j.revision + 1, previous := Some(j))
  }

  function Prepare(r: Record, expected: Journal, operation: nat, attempt: nat, holder: nat, spawn: nat,
                   executable: Executable, seen: World): Option<Record>
  {
    if Intact(r, seen) && r.journal == expected && r.journal.state.Planned? && r.intent.None? then
      Some(r.(intent := Some(Intent(operation, attempt, 1, holder, spawn, executable, Pending, None))))
    else
      None
  }

  function Activate(r: Record, expected: Journal, actor: Option<Intent>, p: ProcessId, seen: World): Option<Record> {
    if && Intact(r, seen) && r.journal == expected
       && (r.journal.state.Planned? || r.journal.state.ReissuePlanned?)
       && r.intent.Some? && r.intent.value.status.Pending? && r.intent.value.process.None?
       && SameActor(actor, r.intent.value)
    then
      var i := r.intent.value;
      Some(r.(
        journal := Advance(r.journal, Provisioning).(
          attempt := Some(i.attempt), fence := i.fence, provisioner := Some(Provisioner(p, i.holder))),
        intent := Some(i.(process := Some(p)))))
    else
      None
  }

  function Register(r: Record, expected: Journal, actor: Option<Intent>, seen: World): Option<Record> {
    if && Intact(r, seen) && r.journal == expected && r.journal.state.Provisioning?
       && r.intent.Some? && r.intent.value.status.Pending?
       && SameActor(actor, r.intent.value)
    then Some(r.(intent := Some(r.intent.value.(status := Registered))))
    else None
  }

  predicate AcceptsResponse(b: Binding, i: Intent, response: Response) {
    && (response.status.Created? || response.status.Exists?)
    && response.session == i.operation
    && response.root == b.executionRoot
    && response.source == b.controlRoot
    && response.commit == b.baseCommit
  }

  function RecordReceipt(r: Record, expected: Journal, actor: Option<Intent>, response: Response, seen: World)
    : Option<Record>
  {
    if && Intact(r, seen) && r.journal == expected && r.journal.state.Provisioning?
       && r.intent.Some? && r.intent.value.status.Registered?
       && SameActor(actor, r.intent.value)
       && r.receipt.None?
       && AcceptsResponse(r.binding, r.intent.value, response)
       && Verified(r.binding, seen)
    then
      var i := r.intent.value;
      Some(r.(receipt := Some(Receipt(i.operation, response, i.executable))))
    else
      None
  }

  function Promote(r: Record, expected: Journal, actor: Option<Intent>, proof: CleanupProof, seen: World)
    : Option<Record>
  {
    if && Intact(r, seen) && r.journal == expected && r.journal.state.Provisioning?
       && r.intent.Some? && r.intent.value.status.Registered?
       && SameActor(actor, r.intent.value)
       && r.receipt.Some?
       && Proves(proof, r.intent.value)
       && Verified(r.binding, seen)
    then
      Some(r.(
        journal := Advance(r.journal, Ready).(provisioner := None),
        intent := Some(r.intent.value.(status := Settled)),
        cleanup := Some(proof)))
    else
      None
  }

  /** An ambiguous effect is kept for recovery, once the attempt's controller is proven gone. */
  function Retain(r: Record, expected: Journal, actor: Option<Intent>, proof: CleanupProof, seen: World)
    : Option<Record>
  {
    if && Intact(r, seen) && r.journal == expected && r.journal.state.Provisioning?
       && r.intent.Some? && r.intent.value.status.Registered?
       && SameActor(actor, r.intent.value)
       && Proves(proof, r.intent.value)
    then
      Some(r.(
        journal := Handover(r.journal),
        cleanup := Some(proof)))
    else
      None
  }

  /** The journal of an active attempt whose controller is handed to cleanup. */
  function Handover(j: Journal): Journal {
    Advance(j, CleanupPending).(provisioner := None, cleanupProvisioner := j.provisioner)
  }

  predicate ProvesTransient(proof: CleanupProof) {
    proof.groupGone && proof.guardAbsent
  }

  /** An attempt without a usable child ends in failure: before its activation, or with its process proven gone. */
  function SettleNoChild(r: Record, expected: Journal, actor: Option<Intent>, proof: Option<CleanupProof>, seen: World)
    : Option<Record>
  {
    if !Intact(r, seen) || r.journal != expected || r.intent.None? || !SameActor(actor, r.intent.value) then
      None
    else
      var i := r.intent.value;
      if && (r.journal.state.Planned? || r.journal.state.ReissuePlanned?)
         && i.status.Pending? && i.process.None? && (proof.Some? ==> ProvesTransient(proof.value))
      then
        Some(r.(journal := Advance(r.journal, Failed), intent := Some(i.(status := NoChild)), cleanup := proof))
      else if r.journal.state.Provisioning? && proof.Some? && Proves(proof.value, i) then
        Some(r.(
          journal := Advance(Handover(r.journal), Failed),
          intent := Some(i.(status := NoChild)),
          cleanup := proof))
      else
        None
  }

  /** An effect whose official response is unknown, left by an attempt whose controller is proven gone. */
  predicate Ambiguous(r: Record) {
    && r.journal.state.CleanupPending?
    && r.intent.Some? && r.intent.value.status.Registered?
    && r.cleanup.Some?
    && r.receipt.None?
    && r.adoption.None?
  }

  function Adopt(r: Record, expected: Journal, proof: Option<CleanupProof>, seen: World): Option<Record> {
    if Intact(r, seen) && r.journal == expected && Ambiguous(r) && r.cleanup == proof && Verified(r.binding, seen) then
      var i := r.intent.value;
      Some(r.(
        journal := Advance(r.journal, Ready).(cleanupProvisioner := None),
        intent := Some(i.(status := Settled)),
        adoption := Some(Adoption(i.operation, i.spawn, i.executable, r.journal, r.cleanup.value))))
    else
      None
  }

  function LastArchive(archives: seq<Archive>): Option<Archive> {
    if archives == [] then None else Some(archives[|archives| - 1])
  }

  function ArchiveOf(r: Record, seen: World): Archive
    requires Ambiguous(r)
  {
    Archive(|r.archives| + 1, LastArchive(r.archives), r.journal, r.intent.value, r.cleanup.value, seen)
  }

  /** A later attempt keeps operation and release and reuses no attempt, holder or spawn intent. */
  predicate Continues(next: Intent, prior: Intent) {
    && next.operation == prior.operation
    && next.executable.release == prior.executable.release
    && next.attempt != prior.attempt && next.holder != prior.holder && next.spawn != prior.spawn
  }

  predicate ContinuesAll(next: Intent, archives: seq<Archive>) {
    forall k :: 0 <= k < |archives| ==> Continues(next, archives[k].intent)
  }

  function PlanReissue(r: Record, expected: Journal, attempt: nat, holder: nat, spawn: nat,
                       executable: Executable, seen: World): Option<Record>
  {
    if Intact(r, seen) && r.journal == expected && Ambiguous(r) && |r.archives| < MAX_ARCHIVES && Absent(seen) then
      var i := r.intent.value;
      var next := Intent(i.operation, attempt, i.fence + 1, holder, spawn, executable, Pending, None);
      var archive := ArchiveOf(r, seen);
      if Continues(next, i) && ContinuesAll(next, r.archives) then
        Some(r.(
          journal := Advance(r.journal, ReissuePlanned).(
            attempt := Some(attempt), fence := i.fence + 1, cleanupProvisioner := None, archive := Some(archive)),
          intent := Some(next),
          archives := r.archives + [archive],
          cleanup := None))
      else
        None
    else
      None
  }

  /**
   A reissue plan without a controller keeps its attempt and fence and takes a new spawn intent, for
   another holder or for another copy of the executable.
   */
  function Reauthorize(r: Record, expected: Journal, holder: nat, spawn: nat, executable: Executable, seen: World)
    : Option<Record>
  {
    if && Intact(r, seen) && r.journal == expected && r.journal.state.ReissuePlanned?
       && r.intent.Some? && r.intent.value.status.Pending? && r.intent.value.process.None?
    then
      var i := r.intent.value;
      var next := i.(holder := holder, spawn := spawn, executable := executable);
      if && (holder != i.holder || executable != i.executable) && spawn != i.spawn
         && executable.release == i.executable.release
         && ContinuesAll(next, r.archives)
      then
        Some(r.(journal := Advance(r.journal, ReissuePlanned), intent := Some(next)))
      else
        None
    else
      None
  }

  /** A separate request, after readiness, creates the launch materials; the journal stays `Ready`. */
  function AuthorizeLaunch(r: Record, expected: Journal, seen: World): Option<Record> {
    if && Intact(r, seen) && r.journal == expected && r.journal.state.Ready? && r.intent.Some?
       && Verified(r.binding, seen)
    then
      Some(r.(launch := Some(Launch(r.intent.value.operation))))
    else
      None
  }

  // ----- What every durable transition keeps -----

  /** `a` is a journal that `j` directly or indirectly replaced. */
  predicate Ancestor(a: Journal, j: Journal)
    decreases j
  {
    j.previous.Some? && (j.previous.value == a || Ancestor(a, j.previous.value))
  }

  predicate GoodArchive(a: Archive, k: nat) {
    && a.ordinal == k + 1
    && a.intent.fence == k + 1
    && a.intent.status.Registered?
    && a.journal.state.CleanupPending?
    && a.journal.fence == k + 1
    && a.journal.attempt == Some(a.intent.attempt)
    && a.journal.cleanupProvisioner == Some(Provisioner(a.cleanup.process, a.intent.holder))
    && Proves(a.cleanup, a.intent)
    && Absent(a.absence)
  }

  /** Archive `k` names its predecessor and the journal it was replaced on, and reuses nothing earlier. */
  predicate Linked(archives: seq<Archive>, k: nat, journal: Journal)
    requires k < |archives|
  {
    && archives[k].previous == LastArchive(archives[..k])
    && archives[k].journal.archive == LastArchive(archives[..k])
    && Ancestor(archives[k].journal, journal)
    && ContinuesAll(archives[k].intent, archives[..k])
  }

  predicate Chained(r: Record) {
    && |r.archives| <= MAX_ARCHIVES
    && r.journal.archive == LastArchive(r.archives)
    && (forall k :: 0 <= k < |r.archives| ==> GoodArchive(r.archives[k], k) && Linked(r.archives, k, r.journal))
    && (r.archives != [] ==> r.intent.Some?)
    && (r.intent.Some? ==> ContinuesAll(r.intent.value, r.archives))
  }

  predicate Fenced(r: Record) {
    && (r.intent.Some? ==> r.intent.value.fence == |r.archives| + 1)
    && (r.journal.fence == 0 <==> r.journal.attempt.None?)
    && (r.journal.attempt.Some? ==>
          && r.intent.Some?
          && r.journal.attempt.value == r.intent.value.attempt
          && r.journal.fence == r.intent.value.fence)
  }

  predicate Evidenced(r: Record) {
    && (r.receipt.Some? ==>
          && r.intent.Some? && r.receipt.value.operation == r.intent.value.operation
          && r.receipt.value.executable == r.intent.value.executable
          && AcceptsResponse(r.binding, r.intent.value, r.receipt.value.response))
    && (r.adoption.Some? ==>
          && r.intent.Some? && r.cleanup.Some? && r.receipt.None?
          && r.adoption.value.operation == r.intent.value.operation
          && r.adoption.value.spawn == r.intent.value.spawn
          && r.adoption.value.executable == r.intent.value.executable
          && r.adoption.value.cleanup == r.cleanup.value
          && r.journal.previous == Some(r.adoption.value.journal) && r.adoption.value.journal.state.CleanupPending?)
    && (r.cleanup.Some? ==> r.intent.Some? && ProvesTransient(r.cleanup.value))
    && (r.cleanup.Some? && r.intent.value.process.Some? ==> Proves(r.cleanup.value, r.intent.value))
    && (r.launch.Some? ==> r.journal.state.Ready?)
  }

  predicate Staged(r: Record) {
    var i := r.intent;
    match r.journal.state
    case Planned =>
      && r.archives == [] && r.journal.attempt.None?
      && (i.Some? ==> i.value.status.Pending? && i.value.process.None?)
      && r.receipt.None? && r.cleanup.None? && r.adoption.None?
    case ReissuePlanned =>
      && r.archives != [] && r.journal.attempt.Some?
      && i.Some? && i.value.status.Pending? && i.value.process.None?
      && r.receipt.None? && r.cleanup.None? && r.adoption.None?
    case Provisioning =>
      && i.Some? && (i.value.status.Pending? || i.value.status.Registered?)
      && i.value.process.Some? && r.journal.attempt.Some?
      && r.journal.provisioner == Some(Provisioner(i.value.process.value, i.value.holder))
      && (r.receipt.Some? ==> i.value.status.Registered?)
      && r.cleanup.None? && r.adoption.None?
    case Ready =>
      && i.Some? && i.value.status.Settled? && i.value.process.Some?
      && r.journal.attempt.Some? && r.cleanup.Some?
      && (r.receipt.Some? <==> r.adoption.None?)
    case CleanupPending =>
      && i.Some? && i.value.status.Registered? && i.value.process.Some?
      && r.journal.attempt.Some? && r.cleanup.Some? && r.adoption.None?
      && r.journal.cleanupProvisioner == Some(Provisioner(i.value.process.value, i.value.holder))
    case Failed =>
      && i.Some? && i.value.status.NoChild? && r.adoption.None?
      && (i.value.process.Some? ==> r.cleanup.Some?)
  }

  predicate Consistent(r: Record) {
    Chained(r) && Fenced(r) && Evidenced(r) && Staged(r)
  }

  lemma {:induction false} AncestorsChain(a: Journal, b: Journal, c: Journal)
    requires Ancestor(a, b) && Ancestor(b, c)
    ensures Ancestor(a, c)
    decreases c
  {
    if c.previous.value != b {
      AncestorsChain(a, b, c.previous.value);
    }
  }

  /** A transition that archives nothing and keeps what links the present attempt to the archives. */
  predicate SameAttempt(r: Record, r': Record) {
    && r'.binding == r.binding
    && r'.archives == r.archives
    && r'.journal.archive == r.journal.archive
    && (r'.journal == r.journal || Ancestor(r.journal, r'.journal))
    && (r.intent.Some? ==>
          && r'.intent.Some?
          && r'.intent.value.operation == r.intent.value.operation
          && r'.intent.value.attempt == r.intent.value.attempt
          && r'.intent.value.executable.release == r.intent.value.executable.release)
    && (r'.intent.Some? ==> ContinuesAll(r'.intent.value, r'.archives))
  }

  lemma SameAttemptKeepsChain(r: Record, r': Record)
    requires Chained(r) && SameAttempt(r, r')
    ensures Chained(r')
  {
    forall k | 0 <= k < |r.archives|
      ensures Linked(r'.archives, k, r'.journal)
    {
      assert Linked(r.archives, k, r.journal);
      if r'.journal != r.journal {
        AncestorsChain(r.archives[k].journal, r.journal, r'.journal);
      }
    }
  }

  /** Planning a reissue extends the archive chain by the attempt it replaces and keeps it linked. */
  lemma PlanReissueKeepsChain(r: Record, expected: Journal, attempt: nat, holder: nat, spawn: nat,
                              executable: Executable, seen: World)
    requires Consistent(r)
    requires PlanReissue(r, expected, attempt, holder, spawn, executable, seen).Some?
    ensures Chained(PlanReissue(r, expected, attempt, holder, spawn, executable, seen).value)
  {
    var r' := PlanReissue(r, expected, attempt, holder, spawn, executable, seen).value;
    assert Ancestor(r.journal, r'.journal);
    forall k | 0 <= k < |r.archives|
      ensures Linked(r'.archives, k, r'.journal)
    {
      OldLinkStays(r.archives, ArchiveOf(r, seen), k, r.journal, r'.journal);
    }
    NewLinkHolds(r, seen, r'.journal);
  }

  lemma OldLinkStays(archives: seq<Archive>, archive: Archive, k: nat, j: Journal, j': Journal)
    requires k < |archives| && Linked(archives, k, j) && Ancestor(j, j')
    ensures Linked(archives + [archive], k, j')
  {
    var archives' := archives + [archive];
    assert archives'[..k] == archives[..k] && archives'[k] == archives[k];
    AncestorsChain(archives[k].journal, j, j');
  }

  lemma NewLinkHolds(r: Record, seen: World, journal: Journal)
    requires Ambiguous(r) && Chained(r) && Fenced(r) && Ancestor(r.journal, journal)
    ensures Linked(r.archives + [ArchiveOf(r, seen)], |r.archives|, journal)
  {
    assert (r.archives + [ArchiveOf(r, seen)])[..|r.archives|] == r.archives;
  }

  lemma PlanReissueKeepsRest(r: Record, expected: Journal, attempt: nat, holder: nat, spawn: nat,
                             executable: Executable, seen: World)
    requires Fenced(r) && Evidenced(r) && Staged(r)
    requires PlanReissue(r, expected, attempt, holder, spawn, executable, seen).Some?
    ensures var r' := PlanReissue(r, expected, attempt, holder, spawn, executable, seen).value;
      Fenced(r') && Evidenced(r') && Staged(r')
  {
  }

  /** Every request that can change the durable record. */
  datatype Request =
    | PrepareRequest(operation: nat, attempt: nat, holder: nat, spawn: nat, executable: Executable)
    | ActivateRequest(process: ProcessId)
    | RegisterRequest
    | ReceiptRequest(response: Response)
    | PromoteRequest(proof: CleanupProof)
    | RetainRequest(proof: CleanupProof)
    | SettleRequest(settledBy: Option<CleanupProof>)
    | AdoptRequest(adoptedOn: Option<CleanupProof>)
    | PlanReissueRequest(attempt: nat, holder: nat, spawn: nat, executable: Executable)
    | ReauthorizeRequest(holder: nat, spawn: nat, executable: Executable)
    | LaunchRequest

  /** The record after `q`, made by a caller that last saw `expected` and presents `actor`. */
  function Commit(r: Record, expected: Journal, actor: Option<Intent>, q: Request, seen: World): Option<Record> {
    match q
    case PrepareRequest(op, attempt, holder, spawn, exe) => Prepare(r, expected, op, attempt, holder, spawn, exe, seen)
    case ActivateRequest(p) => Activate(r, expected, actor, p, seen)
    case RegisterRequest => Register(r, expected, actor, seen)
    case ReceiptRequest(response) => RecordReceipt(r, expected, actor, response, seen)
    case PromoteRequest(proof) => Promote(r, expected, actor, proof, seen)
    case RetainRequest(proof) => Retain(r, expected, actor, proof, seen)
    case SettleRequest(proof) => SettleNoChild(r, expected, actor, proof, seen)
    case AdoptRequest(proof) => Adopt(r, expected, proof, seen)
    case PlanReissueRequest(attempt, holder, spawn, exe) => PlanReissue(r, expected, attempt, holder, spawn, exe, seen)
    case ReauthorizeRequest(holder, spawn, exe) => Reauthorize(r, expected, holder, spawn, exe, seen)
    case LaunchRequest => AuthorizeLaunch(r, expected, seen)
  }

  /** The requests that leave the attempt in `planned`, `reissue_planned`, `provisioning` or `ready`. */
  predicate Continuing(q: Request) {
    || q.PrepareRequest? || q.ActivateRequest? || q.RegisterRequest? || q.ReceiptRequest? || q.ReauthorizeRequest?
    || q.LaunchRequest?
  }

  lemma ContinuingKeepsEvidence(r: Record, expected: Journal, actor: Option<Intent>, q: Request, seen: World)
    requires Fenced(r) && Evidenced(r) && Staged(r) && Continuing(q)
    requires Commit(r, expected, actor, q, seen).Some?
    ensures var r' := Commit(r, expected, actor, q, seen).value;
      Fenced(r') && Evidenced(r') && Staged(r')
  {
  }

  lemma EndingKeepsEvidence(r: Record, expected: Journal, actor: Option<Intent>, q: Request, seen: World)
    requires Fenced(r) && Evidenced(r) && Staged(r) && !Continuing(q) && !q.PlanReissueRequest?
    requires Commit(r, expected, actor, q, seen).Some?
    ensures var r' := Commit(r, expected, actor, q, seen).value;
      Fenced(r') && Evidenced(r') && Staged(r')
  {
  }

  lemma OtherRequestsKeepAttempt(r: Record, expected: Journal, actor: Option<Intent>, q: Request, seen: World)
    requires Staged(r) && !q.PlanReissueRequest? && (r.intent.Some? ==> ContinuesAll(r.intent.value, r.archives))
    requires Commit(r, expected, actor, q, seen).Some?
    ensures SameAttempt(r, Commit(r, expected, actor, q, seen).value)
  {
    var r' := Commit(r, expected, actor, q, seen).value;
    if q.SettleRequest? && r.journal.state.Provisioning? {
      assert Ancestor(r.journal, Handover(r.journal));
    }
  }

  /** Every accepted request keeps the record consistent and its binding untouched. */
  lemma CommitKeepsConsistent(r: Record, expected: Journal, actor: Option<Intent>, q: Request, seen: World)
    requires Consistent(r)
    requires Commit(r, expected, actor, q, seen).Some?
    ensures Consistent(Commit(r, expected, actor, q, seen).value)
    ensures Commit(r, expected, actor, q, seen).value.binding == r.binding
  {
    var r' := Commit(r, expected, actor, q, seen).value;
    if q.PlanReissueRequest? {
      PlanReissueKeepsChain(r, expected, q.attempt, q.holder, q.spawn, q.executable, seen);
      PlanReissueKeepsRest(r, expected, q.attempt, q.holder, q.spawn, q.executable, seen);
    } else {
      if Continuing(q) {
        ContinuingKeepsEvidence(r, expected, actor, q, seen);
      } else {
        EndingKeepsEvidence(r, expected, actor, q, seen);
      }
      OtherRequestsKeepAttempt(r, expected, actor, q, seen);
      SameAttemptKeepsChain(r, r');
    }
  }

  lemma RequestKeepsConsistent(r: Record, expected: Journal, actor: Option<Intent>, q: Request, seen: World)
    requires Consistent(r)
    ensures var accepted := Commit(r, expected, actor, q, seen); accepted.Some? ==> Consistent(accepted.value)
  {
    if Commit(r, expected, actor, q, seen).Some? {
      CommitKeepsConsistent(r, expected, actor, q, seen);
    }
  }

  /**
   Only two requests lead to `Ready`, and both need the worktree of the original binding to be
   registered, clean and exact at that moment, under an unchanged parent checkout.
   */
  lemma ReadyOnlyWhenVerified(r: Record, expected: Journal, actor: Option<Intent>, q: Request, seen: World)
    requires Consistent(r)
    requires Commit(r, expected, actor, q, seen).Some?
    requires !r.journal.state.Ready? && Commit(r, expected, actor, q, seen).value.journal.state.Ready?
    ensures Verified(r.binding, seen)
    ensures q.PromoteRequest? ==> r.receipt.Some? && r.journal.state.Provisioning?
    ensures q.AdoptRequest? ==> Ambiguous(r)
    ensures q.PromoteRequest? || q.AdoptRequest?
  {
  }

  /** A caller whose view of the journal is stale changes nothing. */
  lemma StaleCallersAreRefused(r: Record, expected: Journal, actor: Option<Intent>, q: Request, seen: World)
    requires expected != r.journal
    ensures Commit(r, expected, actor, q, seen).None?
  {
  }

  /** The operation identity, once prepared, outlives every later attempt. */
  lemma OperationIsConstant(r: Record, expected: Journal, actor: Option<Intent>, q: Request, seen: World)
    requires r.intent.Some?
    requires Commit(r, expected, actor, q, seen).Some?
    ensures var r' := Commit(r, expected, actor, q, seen).value;
      r'.intent.Some? && r'.intent.value.operation == r.intent.value.operation
  {
  }

  // ----- The stored record, updated in place -----

  /**
   One stored job.  Each method checks the stored fields and either updates them or refuses; either way the
   record stays consistent.
   */
  class Job {
    const binding: Binding
    var journal: Journal
    var intent: Option<Intent>
    var archives: seq<Archive>
    var receipt: Option<Receipt>
    var cleanup: Option<CleanupProof>
    var adoption: Option<Adoption>
    var launch: Option<Launch>

    ghost function Value(): Record
      reads this
    {
      Record(binding, journal, intent, archives, receipt, cleanup, adoption, launch)
    }

    /** `ok` tells whether the request was accepted; a refused request leaves every field alone. */
    ghost predicate Settles(before: Record, ok: bool, accepted: Option<Record>)
      reads this
    {
      ok == accepted.Some? && Value() == if ok then accepted.value else before
    }

    constructor (b: Binding)
      ensures Value() == Admitted(b) && Consistent(Value())
    {
      binding := b;
      journal := Journal(Planned, 0, None, None, 0, None, None, None);
      intent, archives, receipt, cleanup, adoption, launch := None, [], None, None, None, None;
    }

    /** Whether `actor` is the stored attempt and the attempt has the given status. */
    predicate Holds(actor: Option<Intent>, status: IntentStatus)
      reads this
    {
      intent.Some? && SameActor(actor, intent.value) && intent.value.status == status
    }

    /** The checks that every durable request starts with. */
    predicate Current(expected: Journal, seen: World)
      reads this
    {
      journal == expected && launch.None? && seen.parentFingerprint == binding.parentFingerprint
    }

    method PrepareIntent(expected: Journal, operation: nat, attempt: nat, holder: nat, spawn: nat,
                         executable: Executable, seen: World)
      returns (ok: bool)
      requires Consistent(Value())
      modifies this
      ensures Settles(old(Value()), ok,
                      Prepare(old(Value()), expected, operation, attempt, holder, spawn, executable, seen))
      ensures Consistent(Value())
    {
      RequestKeepsConsistent(Value(), expected, None, PrepareRequest(operation, attempt, holder, spawn, executable), seen);
      ok := Current(expected, seen) && journal.state.Planned? && intent.None?;
      if ok {
        intent := Some(Intent(operation, attempt, 1, holder, spawn, executable, Pending, None));
      }
    }

    method ActivateAttempt(expected: Journal, actor: Option<Intent>, p: ProcessId, seen: World) returns (ok: bool)
      requires Consistent(Value())
      modifies this
      ensures Settles(old(Value()), ok, Activate(old(Value()), expected, actor, p, seen))
      ensures Consistent(Value())
    {
      ghost var before := Value();
      ok := Current(expected, seen) && (journal.state.Planned? || journal.state.ReissuePlanned?)
        && Holds(actor, Pending) && intent.value.process.None?;
      if ok {
        journal := Advance(journal, Provisioning);
        journal := journal.(attempt := Some(intent.value.attempt), fence := intent.value.fence);
        journal := journal.(provisioner := Some(Provisioner(p, intent.value.holder)));
        intent := Some(intent.value.(process := Some(p)));
      }
      assert Settles(before, ok, Commit(before, expected, actor, ActivateRequest(p), seen));
      RequestKeepsConsistent(before, expected, actor, ActivateRequest(p), seen);
    }

    method RegisterController(expected: Journal, actor: Option<Intent>, seen: World) returns (ok: bool)
      requires Consistent(Value())
      modifies this
      ensures Settles(old(Value()), ok, Register(old(Value()), expected, actor, seen))
      ensures Consistent(Value())
    {
      RequestKeepsConsistent(Value(), expected, actor, RegisterRequest, seen);
      ok := Current(expected, seen) && journal.state.Provisioning? && Holds(actor, Pending);
      if ok {
        intent := Some(intent.value.(status := Registered));
      }
    }

    method RecordOfficialReceipt(expected: Journal, actor: Option<Intent>, response: Response, seen: World)
      returns (ok: bool)
      requires Consistent(Value())
      modifies this
      ensures Settles(old(Value()), ok, RecordReceipt(old(Value()), expected, actor, response, seen))
      ensures Consistent(Value())
    {
      RequestKeepsConsistent(Value(), expected, actor, ReceiptRequest(response), seen);
      ok := Current(expected, seen) && journal.state.Provisioning? && Holds(actor, Registered) && receipt.None?;
      if ok && AcceptsResponse(binding, intent.value, response) && Verified(binding, seen) {
        receipt := Some(Receipt(intent.value.operation, response, intent.value.executable));
      } else {
        ok := false;
      }
    }

    method PromoteReady(expected: Journal, actor: Option<Intent>, proof: CleanupProof, seen: World)
      returns (ok: bool)
      requires Consistent(Value())
      modifies this
      ensures Settles(old(Value()), ok, Promote(old(Value()), expected, actor, proof, seen))
      ensures Consistent(Value())
    {
      ghost var before := Value();
      ok := Current(expected, seen) && journal.state.Provisioning? && Holds(actor, Registered) && receipt.Some?;
      if ok && Proves(proof, intent.value) && Verified(binding, seen) {
        journal := Advance(journal, Ready);
        journal := journal.(provisioner := None);
        intent := Some(intent.value.(status := Settled));
        cleanup := Some(proof);
      } else {
        ok := false;
      }
      assert Settles(before, ok, Commit(before, expected, actor, PromoteRequest(proof), seen));
      RequestKeepsConsistent(before, expected, actor, PromoteRequest(proof), seen);
    }

    method RetainCleanupPending(expected: Journal, actor: Option<Intent>, proof: CleanupProof, seen: World)
      returns (ok: bool)
      requires Consistent(Value())
      modifies this
      ensures Settles(old(Value()), ok, Retain(old(Value()), expected, actor, proof, seen))
      ensures Consistent(Value())
    {
      ghost var before := Value();
      ok := Current(expected, seen) && journal.state.Provisioning? && Holds(actor, Registered);
      if ok && Proves(proof, intent.value) {
        HandOver();
        cleanup := Some(proof);
      } else {
        ok := false;
      }
      assert Settles(before, ok, Commit(before, expected, actor, RetainRequest(proof), seen));
      RequestKeepsConsistent(before, expected, actor, RetainRequest(proof), seen);
    }

    method HandOver()
      modifies this`journal
      ensures journal == Handover(old(journal))
    {
      var controller := journal.provisioner;
      journal := Advance(journal, CleanupPending);
      journal := journal.(provisioner := None, cleanupProvisioner := controller);
    }

    method Fail(proof: Option<CleanupProof>)
      requires intent.Some?
      modifies this`journal, this`intent, this`cleanup
      ensures journal == Advance(old(journal), Failed) && cleanup == proof
      ensures intent == Some(old(intent).value.(status := NoChild))
    {
      journal := Advance(journal, Failed);
      intent := Some(intent.value.(status := NoChild));
      cleanup := proof;
    }

    method RecordNoChild(expected: Journal, actor: Option<Intent>, proof: Option<CleanupProof>, seen: World)
      returns (ok: bool)
      requires Consistent(Value())
      modifies this
      ensures Settles(old(Value()), ok, SettleNoChild(old(Value()), expected, actor, proof, seen))
      ensures Consistent(Value())
    {
      ghost var before := Value();
      ok := false;
      if Current(expected, seen) && intent.Some? && SameActor(actor, intent.value) {
        if journal.state.Planned? || journal.state.ReissuePlanned? {
          ok := intent.value.status.Pending? && intent.value.process.None? && (proof.Some? ==> ProvesTransient(proof.value));
        } else if journal.state.Provisioning? && proof.Some? && Proves(proof.value, intent.value) {
          ok := true;
          HandOver();
        }
      }
      if ok {
        Fail(proof);
      }
      assert Settles(before, ok, Commit(before, expected, actor, SettleRequest(proof), seen));
      RequestKeepsConsistent(before, expected, actor, SettleRequest(proof), seen);
    }

    /** Whether the stored attempt left an effect whose official response is unknown. */
    predicate Unresolved()
      reads this
    {
      journal.state.CleanupPending? && intent.Some? && intent.value.status.Registered?
      && cleanup.Some? && receipt.None? && adoption.None?
    }

    method AdoptEffect(expected: Journal, proof: Option<CleanupProof>, seen: World) returns (ok: bool)
      requires Consistent(Value())
      modifies this
      ensures Settles(old(Value()), ok, Adopt(old(Value()), expected, proof, seen))
      ensures Consistent(Value())
    {
      ghost var before := Value();
      ok := Current(expected, seen) && Unresolved() && cleanup == proof && Verified(binding, seen);
      if ok {
        adoption := Some(
          Adoption(intent.value.operation, intent.value.spawn, intent.value.executable, journal, cleanup.value));
        journal := Advance(journal, Ready);
        journal := journal.(cleanupProvisioner := None);
        intent := Some(intent.value.(status := Settled));
      }
      assert Settles(before, ok, Commit(before, expected, None, AdoptRequest(proof), seen));
      RequestKeepsConsistent(before, expected, None, AdoptRequest(proof), seen);
    }

    /** Archives the present attempt and plans the next one. */
    method ReplaceAttempt(next: Intent, seen: World)
      requires Ambiguous(Value())
      modifies this
      ensures var r := old(Value());
        Value() == r.(
          journal := Advance(r.journal, ReissuePlanned).(
            attempt := Some(next.attempt), fence := next.fence, cleanupProvisioner := None, archive := Some(ArchiveOf(r, seen))),
          intent := Some(next), archives := r.archives + [ArchiveOf(r, seen)], cleanup := None)
    {
      var archive := Archive(|archives| + 1, LastArchive(archives), journal, intent.value, cleanup.value, seen);
      archives := archives + [archive];
      journal := Advance(journal, ReissuePlanned);
      journal := journal.(attempt := Some(next.attempt), fence := next.fence);
      journal := journal.(cleanupProvisioner := None, archive := Some(archive));
      intent := Some(next);
      cleanup := None;
    }

    method PrepareReissue(expected: Journal, attempt: nat, holder: nat, spawn: nat, executable: Executable,
                          seen: World)
      returns (ok: bool)
      requires Consistent(Value())
      modifies this
      ensures Settles(old(Value()), ok,
                      PlanReissue(old(Value()), expected, attempt, holder, spawn, executable, seen))
      ensures Consistent(Value())
    {
      ghost var before := Value();
      ok := Current(expected, seen) && Unresolved() && |archives| < MAX_ARCHIVES && Absent(seen);
      if ok {
        var prior := intent.value;
        var next := Intent(prior.operation, attempt, prior.fence + 1, holder, spawn, executable, Pending, None);
        ok := Continues(next, prior) && ContinuesAll(next, archives);
        if ok {
          ReplaceAttempt(next, seen);
        }
      }
      assert Settles(before, ok, Commit(before, expected, None, PlanReissueRequest(attempt, holder, spawn, executable), seen));
      RequestKeepsConsistent(before, expected, None, PlanReissueRequest(attempt, holder, spawn, executable), seen);
    }

    method ReauthorizeReissue(expected: Journal, holder: nat, spawn: nat, executable: Executable, seen: World)
      returns (ok: bool)
      requires Consistent(Value())
      modifies this
      ensures Settles(old(Value()), ok, Reauthorize(old(Value()), expected, holder, spawn, executable, seen))
      ensures Consistent(Value())
    {
      ghost var before := Value();
      ok := Current(expected, seen) && journal.state.ReissuePlanned?
        && intent.Some? && intent.value.status.Pending? && intent.value.process.None?;
      if ok {
        var next := intent.value.(holder := holder, spawn := spawn, executable := executable);
        ok := (holder != intent.value.holder || executable != intent.value.executable) && spawn != intent.value.spawn
          && executable.release == intent.value.executable.release && ContinuesAll(next, archives);
        if ok {
          journal := Advance(journal, ReissuePlanned);
          intent := Some(next);
        }
      }
      assert Settles(before, ok, Commit(before, expected, None, ReauthorizeRequest(holder, spawn, executable), seen));
      RequestKeepsConsistent(before, expected, None, ReauthorizeRequest(holder, spawn, executable), seen);
    }

    method AuthorizeProviderLaunch(expected: Journal, seen: World) returns (ok: bool)
      requires Consistent(Value())
      modifies this
      ensures Settles(old(Value()), ok, AuthorizeLaunch(old(Value()), expected, seen))
      ensures Consistent(Value())
    {
      RequestKeepsConsistent(Value(), expected, None, LaunchRequest, seen);
      ok := Current(expected, seen) && journal.state.Ready? && intent.Some? && Verified(binding, seen);
      if ok {
        launch := Some(Launch(intent.value.operation));
      }
    }
  }
}
