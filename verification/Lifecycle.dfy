/**
 The provider lifecycle of one dispatch: a first provider, and at most one authorized rotation to a second
 one that repairs the report.  The acceptor reads a persisted record and decides which it was.
 */
module Lifecycle {
  import opened Wrappers

  datatype Phase = WorkerStarted | ProviderStarted | Failed

  datatype Status = Pending | Registered | NoChild

  /** What every record of one dispatch carries. */
  datatype Dispatch = Dispatch(job: nat, attempt: nat, fence: nat)

  datatype SpawnIntent = SpawnIntent(id: nat, bound: Dispatch, generation: nat, status: Status)

  datatype RotationIntent = RotationIntent(id: nat, bound: Dispatch, base: nat, target: nat, status: Status)

  /** `settled` is false for a witness of a launch whose birth identity is unknown. */
  datatype Process = Process(pid: nat, bound: Dispatch, generation: nat, settled: bool)

  /** `issues` is None when the repair itself failed. */
  datatype Repair = Repair(attempted: bool, valid: bool, initialBytes: nat, issues: Option<nat>)

  datatype Job = Job(
    bound: Dispatch,
    phase: Phase,
    generation: nat,
    next: Option<nat>,
    rotations: Option<nat>,
    authorized: bool,
    rotated: bool,
    spawn: Option<SpawnIntent>,
    rotation: Option<RotationIntent>,
    process: Option<Process>,
    unsettled: bool,
    repair: Option<Repair>,
    terminal: bool)

  // ----- The durable contract -----

  predicate SpawnContract(j: Job) {
    match j.spawn
    case None => true
    case Some(intent) =>
      && intent.bound == j.bound && 1 <= intent.generation <= 2
      && (|| (intent.generation == 1 && j.generation == (if j.phase.ProviderStarted? then 1 else 0) && j.next.None?)
          || (intent.generation == 2 && j.generation == 1 && j.next == Some(2))
          || (intent.generation == 2 && j.next.None? && intent.status.Registered? && j.generation == 2)
          || (intent.generation == 2 && j.next.None? && intent.status.NoChild? && j.generation == 1))
  }

  predicate RotationContract(j: Job) {
    match j.rotation
    case None => true
    case Some(intent) =>
      && intent.bound == j.bound && intent.base == 1 && intent.target == 2
      && (match intent.status
          case Pending => j.phase.ProviderStarted? && j.generation == 1 && j.next == Some(2)
          case Registered => !j.phase.WorkerStarted? && j.generation == 2 && j.next.None?
          case NoChild => j.generation == 1 && j.next.None?)
  }

  /** A rotation and the spawn it authorizes are one launch boundary. */
  predicate OneBoundary(j: Job) {
    j.rotation.Some? ==>
      && j.spawn.Some? && j.spawn.value.id == j.rotation.value.id && j.spawn.value.generation == j.rotation.value.target
      && (if j.rotation.value.status.Pending? then !j.spawn.value.status.NoChild?
          else j.spawn.value.status == j.rotation.value.status)
  }

  predicate ProcessContract(j: Job) {
    && (j.phase.ProviderStarted? ==> j.process.Some? && j.process.value.settled)
    && (j.process.Some? ==>
          && j.process.value.bound == j.bound
          && j.process.value.generation == (if j.phase.WorkerStarted? then j.generation + 1 else j.generation))
    && (j.phase.ProviderStarted? && j.spawn.Some? && j.spawn.value.generation == j.generation ==>
          j.spawn.value.status.Registered?)
  }

  /** What every write must satisfy. */
  predicate Contract(j: Job) {
    SpawnContract(j) && RotationContract(j) && OneBoundary(j) && ProcessContract(j)
  }

  // ----- The acceptor -----

  predicate BoundProcess(j: Job, generation: nat) {
    j.process.Some? && j.process.value.bound == j.bound && j.process.value.generation == generation
  }

  predicate RegisteredSpawn(j: Job, generation: nat) {
    j.spawn.Some? && j.spawn.value.bound == j.bound && j.spawn.value.status.Registered? && j.spawn.value.generation == generation
  }

  predicate GenerationOneProof(j: Job) {
    && j.generation == 1 && j.next.None? && j.rotations.None? && !j.rotated && !j.authorized
    && j.rotation.None? && j.repair.None?
    && RegisteredSpawn(j, 1) && BoundProcess(j, 1)
  }

  predicate GenerationTwoProof(j: Job) {
    && j.generation == 2 && j.next.None? && j.rotations == Some(1) && j.authorized && j.rotated
    && j.rotation.Some? && j.rotation.value.bound == j.bound && j.rotation.value.status.Registered?
    && j.rotation.value.base == 1 && j.rotation.value.target == 2
    && RegisteredSpawn(j, 2) && j.spawn.value.id == j.rotation.value.id
    && j.repair.Some? && j.repair.value.attempted && j.repair.value.valid
    && j.repair.value.initialBytes > 0 && j.repair.value.issues == Some(0)
    && BoundProcess(j, 2)
  }

  /** The accepted generation, if any. */
  function Accepted(j: Job): Option<nat> {
    if Contract(j) && (GenerationOneProof(j) || GenerationTwoProof(j)) then Some(j.generation) else None
  }

  /** The proofs exclude each other, and everything on an accepted record names its generation. */
  lemma AcceptedAgrees(j: Job)
    requires Accepted(j).Some?
    ensures var g := Accepted(j).value;
      && 1 <= g <= 2 && !(GenerationOneProof(j) && GenerationTwoProof(j))
      && j.generation == g && j.spawn.value.generation == g && j.process.value.generation == g
      && (if j.rotations.Some? then j.rotations.value else 0) == g - 1
      && j.next.None? && (j.rotation.Some? <==> g == 2) && (j.repair.Some? <==> g == 2)
  {
  }

  // ----- Transitions of the record -----

  /** Whether a provider of this generation may be launched or settled now. */
  predicate Boundary(j: Job, generation: nat) {
    match j.phase
    case WorkerStarted => generation == j.generation + 1 && j.next.None?
    case ProviderStarted => j.next == Some(generation) && generation == j.generation + 1
    case Failed => false
  }

  /**
   `guard` is the provider that the ownership record names, `live` the registered ones that still run, and
   `astray` those that were recorded without a birth identity and may still run.
   */
  datatype System = System(job: Job, guard: Option<Process>, live: set<Process>, astray: set<Process>, log: seq<Entry>)

  /** What happened, independently of the record. */
  datatype Entry =
    | Started(generation: nat)
    | Authorized
    | Settled(generation: nat)
    | Unsettled
    | Repaired(valid: bool, initialBytes: nat)

  datatype Step =
    | Prepare(id: nat)
    | RegisterGuard(pid: nat)
    | Start(pid: nat)
    | Exit(process: Process)
    | RemoveGuard
    | SettleNoChild(revoked: bool)
    | Authorize(id: nat)
    | RecordUnsettled(pid: nat)
    | Persist(repair: Option<Repair>)

  function Initial(bound: Dispatch): System {
    System(Job(bound, WorkerStarted, 0, None, None, false, false, None, None, None, false, None, false), None, {}, {}, [])
  }

  function WithStatus(j: Job, status: Status): Job
    requires j.spawn.Some?
  {
    j.(spawn := Some(j.spawn.value.(status := status)))
  }

  /** A spawn intent is prepared once; a second preparation finds it pending and changes nothing. */
  function Prepared(s: System, id: nat): System {
    var j := s.job;
    if !j.terminal && Boundary(j, j.generation + 1) && s.guard.None? && j.spawn.None? then
      s.(job := j.(spawn := Some(SpawnIntent(id, j.bound, j.generation + 1, Pending))))
    else s
  }

  /** The bootstrap may become a provider only while its intent is pending and nothing else owns the job. */
  function Guarded(s: System, pid: nat): System {
    var j := s.job;
    if j.spawn.Some? && j.spawn.value.status.Pending? && Boundary(j, j.spawn.value.generation) && s.guard.None? then
      var p := Process(pid, j.bound, j.spawn.value.generation, true);
      s.(job := WithStatus(j, Registered), guard := Some(p), live := s.live + {p})
    else s
  }

  /** Cleanup owns a provider whose birth identity is unknown: no later one may start in its place. */
  predicate CleanupClaimed(j: Job) {
    j.unsettled || (j.process.Some? && !j.process.value.settled)
  }

  /** The first start, or the rotation that was authorized; a repeated one changes nothing. */
  function DidStart(s: System, pid: nat): System {
    var j := s.job;
    if j.terminal || j.spawn.None? || j.spawn.value.status.NoChild? || !Boundary(j, j.spawn.value.generation)
      || CleanupClaimed(j)
    then s
    else
      var g := j.spawn.value.generation;
      var started := WithStatus(j, Registered).(
        phase := ProviderStarted, generation := g, next := None, process := Some(Process(pid, j.bound, g, true)));
      if j.phase.WorkerStarted? then s.(job := started, log := s.log + [Started(g)])
      else if j.rotation.Some? && j.rotation.value.status.Pending? && j.rotation.value.target == g then
        s.(job := started.(
             rotation := Some(j.rotation.value.(status := Registered)),
             rotated := true, rotations := Some((if j.rotations.Some? then j.rotations.value else 0) + 1)),
           log := s.log + [Started(g)])
      else s
  }

  /** The launch is settled without a provider: none was registered, or the registered one is proven gone. */
  function DidSettle(s: System, revoked: bool): System {
    var j := s.job;
    if j.terminal || j.spawn.None? || j.spawn.value.status.NoChild? || !Boundary(j, j.spawn.value.generation)
      || (if s.guard.Some? then s.guard.value in s.live || s.guard.value.generation != j.spawn.value.generation
          else j.spawn.value.status.Registered?)
      || (revoked && !j.spawn.value.status.Pending?)
    then s
    else
      var g := j.spawn.value.generation;
      s.(job := WithStatus(j, NoChild).(
           rotation := if j.rotation.Some? then Some(j.rotation.value.(status := NoChild)) else None,
           next := if g == 2 then None else j.next),
         guard := None, log := s.log + [Settled(g)])
  }

  /** The single rotation: the first provider and its ownership record must be gone. */
  function DidAuthorize(s: System, id: nat): System {
    var j := s.job;
    if j.terminal || !j.phase.ProviderStarted? || j.generation != 1 || j.process.None? || !j.process.value.settled
      || j.process.value.generation != 1 || (exists p :: p in s.live && p.pid == j.process.value.pid) || s.guard.Some?
      || j.rotation.Some? || j.next.Some?
    then s
    else
      s.(job := j.(
           rotation := Some(RotationIntent(id, j.bound, 1, 2, Pending)),
           spawn := Some(SpawnIntent(id, j.bound, 2, Pending)), next := Some(2), authorized := true),
         log := s.log + [Authorized])
  }

  /** A provider whose birth identity is unknown leaves a witness; in a rotation it also ends the dispatch. */
  function DidNotSettle(s: System, pid: nat): System {
    var j := s.job;
    var unknown := Process(pid, j.bound, j.generation + 1, false);
    if j.terminal then s
    else if j.phase.WorkerStarted? && j.process.None? then
      s.(job := j.(process := Some(unknown), unsettled := true), astray := s.astray + {unknown}, log := s.log + [Unsettled])
    else if j.phase.ProviderStarted? && j.generation > 0 && j.next == Some(j.generation + 1) then
      var pending := j.rotation.Some? && j.rotation.value.status.Pending?;
      s.(job := j.(
           phase := Failed, generation := j.generation + 1, next := None, process := Some(unknown), unsettled := true,
           rotation := if pending then Some(j.rotation.value.(status := Registered)) else j.rotation,
           spawn := if pending && j.spawn.Some? && j.spawn.value.id == j.rotation.value.id
                    then Some(j.spawn.value.(status := Registered)) else j.spawn),
         astray := s.astray + {unknown}, log := s.log + [Unsettled])
    else s
  }

  /** A repair counts as valid only after the second provider ran and its report had no issue. */
  predicate Honest(j: Job, repair: Repair) {
    && repair.attempted && j.phase != WorkerStarted
    && (repair.valid ==> repair.issues == Some(0))
    && (repair.issues.Some? ==> j.phase.ProviderStarted? && j.generation == 2)
  }

  function Persisted(s: System, repair: Option<Repair>): System {
    if s.job.terminal || (repair.Some? && !Honest(s.job, repair.value)) then s
    else
      s.(job := s.job.(repair := repair, terminal := true),
         log := if repair.Some? then s.log + [Repaired(repair.value.valid, repair.value.initialBytes)] else s.log)
  }

  function Exec(s: System, step: Step): System {
    match step
    case Prepare(id) => Prepared(s, id)
    case RegisterGuard(pid) => Guarded(s, pid)
    case Start(pid) => DidStart(s, pid)
    case Exit(p) => s.(live := s.live - {p}, astray := s.astray - {p})
    case RemoveGuard => if s.guard.Some? && s.guard.value !in s.live then s.(guard := None) else s
    case SettleNoChild(revoked) => DidSettle(s, revoked)
    case Authorize(id) => DidAuthorize(s, id)
    case RecordUnsettled(pid) => DidNotSettle(s, pid)
    case Persist(repair) => Persisted(s, repair)
  }

  function Run(s: System, steps: seq<Step>): System
    decreases |steps|
  {
    if steps == [] then s else Run(Exec(s, steps[0]), steps[1..])
  }

  // ----- Histories -----

  /** Nothing was rotated, repaired or authorized. */
  predicate Fresh(j: Job) {
    j.rotation.None? && j.rotations.None? && !j.authorized && !j.rotated && j.next.None?
  }

  predicate Spawned(j: Job, generation: nat) {
    j.spawn.Some? && j.spawn.value.bound == j.bound && j.spawn.value.generation == generation
  }

  predicate Unstarted(j: Job) {
    && j.phase.WorkerStarted? && j.generation == 0 && Fresh(j)
    && (j.process.Some? ==> j.process.value.bound == j.bound && j.process.value.generation == 1)
    && (j.process.Some? <==> j.unsettled)
  }

  predicate Running(j: Job, generation: nat) {
    && j.phase.ProviderStarted? && j.generation == generation
    && BoundProcess(j, generation) && j.process.value.settled
  }

  predicate Rotating(j: Job, status: Status) {
    && Spawned(j, 2) && j.authorized
    && j.rotation == Some(RotationIntent(j.spawn.value.id, j.bound, 1, 2, status))
  }

  /** What the record looks like after the launches `h`. */
  predicate Tells(j: Job, h: seq<Entry>) {
    if h == [] || h == [Unsettled] then Unstarted(j) && (j.spawn.Some? ==> Spawned(j, 1) && !j.spawn.value.status.NoChild?)
    else if h == [Settled(1)] || h == [Settled(1), Unsettled] || h == [Unsettled, Settled(1)] then
      Unstarted(j) && Spawned(j, 1) && j.spawn.value.status.NoChild?
    else if h == [Started(1)] then Running(j, 1) && Fresh(j) && RegisteredSpawn(j, 1)
    else if h == [Started(1), Authorized] then
      && Running(j, 1) && j.next == Some(2) && Rotating(j, Pending)
      && !j.spawn.value.status.NoChild? && j.rotations.None? && !j.rotated
    else if h == [Started(1), Authorized, Settled(2)] then
      && Running(j, 1) && j.next.None? && Rotating(j, NoChild) && j.spawn.value.status.NoChild?
      && j.rotations.None? && !j.rotated
    else if h == [Started(1), Authorized, Started(2)] then
      && Running(j, 2) && j.next.None? && Rotating(j, Registered) && RegisteredSpawn(j, 2)
      && j.rotations == Some(1) && j.rotated
    else if h == [Started(1), Authorized, Unsettled] then
      && j.phase.Failed? && j.generation == 2 && j.next.None? && Rotating(j, Registered) && RegisteredSpawn(j, 2)
      && j.rotations.None? && !j.rotated && BoundProcess(j, 2) && j.unsettled
    else false
  }

  /** The launches, without the repair that ends them. */
  function Launches(log: seq<Entry>): (h: seq<Entry>)
    ensures |log| > 0 && log[|log| - 1].Repaired? ==> log == h + [log[|log| - 1]]
  {
    if |log| > 0 && log[|log| - 1].Repaired? then log[..|log| - 1] else log
  }

  predicate Witnessed(j: Job, log: seq<Entry>) {
    j.unsettled <==> Unsettled in log
  }

  predicate RepairTold(j: Job, log: seq<Entry>) {
    match j.repair
    case None => |log| > 0 ==> !log[|log| - 1].Repaired?
    case Some(repair) =>
      && j.terminal && repair.attempted && |log| > 0 && log[|log| - 1] == Repaired(repair.valid, repair.initialBytes)
      && (repair.valid ==> repair.issues == Some(0)) && !j.phase.WorkerStarted?
  }

  /** Whatever runs is the provider that the ownership record names. */
  predicate Owned(s: System) {
    && (forall p :: p in s.live ==> s.guard == Some(p))
    && (s.guard.Some? ==> s.guard.value.generation == if s.job.authorized then 2 else 1)
    && (forall p :: p in s.astray ==> s.job.unsettled && s.job.process == Some(p))
  }

  /** The record tells exactly what happened. */
  predicate Told(s: System) {
    Tells(s.job, Launches(s.log)) && RepairTold(s.job, s.log) && Witnessed(s.job, s.log)
  }

  /** While the job is not terminal, the log is all launches. */
  lemma NotYetRepaired(s: System)
    requires Told(s) && !s.job.terminal
    ensures Launches(s.log) == s.log && s.job.repair.None?
  {
  }

  lemma Extends(s: System, s': System, entry: Entry)
    requires Told(s) && !s.job.terminal && !entry.Repaired?
    requires s'.log == s.log + [entry] && s'.job.repair.None? && Tells(s'.job, s.log + [entry])
    requires s'.job.unsettled == (s.job.unsettled || entry == Unsettled)
    ensures Told(s')
  {
  }

  lemma PreparedKeepsTold(s: System, id: nat)
    requires Told(s)
    ensures Told(Prepared(s, id))
  {
  }

  lemma GuardedKeepsTold(s: System, pid: nat)
    requires Told(s)
    ensures Told(Guarded(s, pid))
  {
  }

  lemma DidStartKeepsTold(s: System, pid: nat)
    requires Told(s)
    ensures Told(DidStart(s, pid))
  {
    if DidStart(s, pid) != s {
      NotYetRepaired(s);
      var g := s.job.spawn.value.generation;
      assert s.log + [Started(g)] == if g == 1 then [Started(1)] else [Started(1), Authorized, Started(2)];
      Extends(s, DidStart(s, pid), Started(g));
    }
  }

  lemma DidSettleKeepsTold(s: System, revoked: bool)
    requires Told(s)
    ensures Told(DidSettle(s, revoked))
  {
    if DidSettle(s, revoked) != s {
      NotYetRepaired(s);
      var g := s.job.spawn.value.generation;
      assert s.log + [Settled(g)] ==
        if g == 2 then [Started(1), Authorized, Settled(2)] else if s.job.unsettled then [Unsettled, Settled(1)] else [Settled(1)];
      Extends(s, DidSettle(s, revoked), Settled(g));
    }
  }

  lemma DidAuthorizeKeepsTold(s: System, id: nat)
    requires Told(s)
    ensures Told(DidAuthorize(s, id))
  {
    if DidAuthorize(s, id) != s {
      NotYetRepaired(s);
      assert s.log + [Authorized] == [Started(1), Authorized];
      Extends(s, DidAuthorize(s, id), Authorized);
    }
  }

  lemma DidNotSettleKeepsTold(s: System, pid: nat)
    requires Told(s)
    ensures Told(DidNotSettle(s, pid))
  {
    if DidNotSettle(s, pid).log != s.log {
      NotYetRepaired(s);
      assert s.log + [Unsettled] ==
        if s.job.phase.ProviderStarted? then [Started(1), Authorized, Unsettled]
        else if s.log == [] then [Unsettled] else [Settled(1), Unsettled];
      Extends(s, DidNotSettle(s, pid), Unsettled);
    }
  }

  lemma PersistedKeepsTold(s: System, repair: Option<Repair>)
    requires Told(s)
    ensures Told(Persisted(s, repair))
  {
    if Persisted(s, repair) != s {
      NotYetRepaired(s);
    }
  }

  lemma ExecKeepsTold(s: System, step: Step)
    requires Told(s)
    ensures Told(Exec(s, step))
  {
    match step
    case Prepare(id) => PreparedKeepsTold(s, id);
    case RegisterGuard(pid) => GuardedKeepsTold(s, pid);
    case Start(pid) => DidStartKeepsTold(s, pid);
    case SettleNoChild(revoked) => DidSettleKeepsTold(s, revoked);
    case Authorize(id) => DidAuthorizeKeepsTold(s, id);
    case RecordUnsettled(pid) => DidNotSettleKeepsTold(s, pid);
    case Persist(repair) => PersistedKeepsTold(s, repair);
    case _ =>
  }

  lemma GuardedKeepsOwned(s: System, pid: nat)
    requires Told(s) && Owned(s)
    ensures Owned(Guarded(s, pid))
  {
  }

  lemma LaunchKeepsOwned(s: System, step: Step)
    requires Told(s) && Owned(s) && (step.Start? || step.Authorize? || step.SettleNoChild? || step.RecordUnsettled?)
    ensures Owned(Exec(s, step))
  {
  }

  lemma ExecKeepsOwned(s: System, step: Step)
    requires Told(s) && Owned(s)
    ensures Owned(Exec(s, step))
  {
    if step.RegisterGuard? {
      GuardedKeepsOwned(s, step.pid);
    } else if step.Start? || step.Authorize? || step.SettleNoChild? || step.RecordUnsettled? {
      LaunchKeepsOwned(s, step);
    }
  }

  lemma {:induction false} RunKeepsTold(s: System, steps: seq<Step>)
    requires Told(s) && Owned(s)
    ensures Told(Run(s, steps)) && Owned(Run(s, steps))
    decreases |steps|
  {
    if steps != [] {
      ExecKeepsTold(s, steps[0]);
      ExecKeepsOwned(s, steps[0]);
      RunKeepsTold(Exec(s, steps[0]), steps[1..]);
    }
  }

  /**
   Over every run the acceptor recognizes two histories and no other: one provider and nothing else, or
   one authorized rotation to a second provider whose repair of a nonempty first answer succeeded.  A
   pending, revoked, unsettled or repeated launch is never accepted, nor is a repair without a rotation.
   */
  lemma AcceptsExactlyTwoHistories(bound: Dispatch, steps: seq<Step>)
    ensures var s := Run(Initial(bound), steps);
      && (Accepted(s.job) == Some(1) <==> s.log == [Started(1)])
      && (Accepted(s.job) == Some(2) <==>
            exists bytes :: bytes > 0 && s.log == [Started(1), Authorized, Started(2), Repaired(true, bytes)])
      && (Unsettled in s.log ==> Accepted(s.job).None?)
  {
    var s := Run(Initial(bound), steps);
    RunKeepsTold(Initial(bound), steps);
    ToldContract(s);
    AcceptsOne(s);
    AcceptsTwo(s);
  }

  /** No write of any transition breaks the contract that every later reader asserts. */
  lemma ToldContract(s: System)
    requires Told(s)
    ensures Contract(s.job)
  {
  }

  lemma AcceptsOne(s: System)
    requires Told(s)
    ensures GenerationOneProof(s.job) <==> s.log == [Started(1)]
  {
  }

  lemma AcceptsTwo(s: System)
    requires Told(s)
    ensures GenerationTwoProof(s.job) <==>
      exists bytes :: bytes > 0 && s.log == [Started(1), Authorized, Started(2), Repaired(true, bytes)]
  {
    if GenerationTwoProof(s.job) {
      assert s.log == Launches(s.log) + [Repaired(true, s.job.repair.value.initialBytes)];
      assert Launches(s.log) == [Started(1), Authorized, Started(2)];
    }
    if bytes :| bytes > 0 && s.log == [Started(1), Authorized, Started(2), Repaired(true, bytes)] {
      assert Launches(s.log) == [Started(1), Authorized, Started(2)];
    }
  }

  lemma TwoGenerations(s: System)
    requires Told(s)
    ensures s.job.generation <= 2 && (Authorized in s.log ==> s.job.authorized)
  {
    assert s.log == Launches(s.log) || s.log == Launches(s.log) + [s.log[|s.log| - 1]];
    assert Authorized in s.log ==> Authorized in Launches(s.log);
  }

  /**
   At any time at most one registered provider runs, and at most one was recorded without a birth identity;
   at most two generations ever start, and after the authorization only the second one runs.
   */
  lemma OneProviderAtATime(bound: Dispatch, steps: seq<Step>)
    ensures var s := Run(Initial(bound), steps);
      && (forall p, q :: p in s.live && q in s.live ==> p == q)
      && (forall p, q :: p in s.astray && q in s.astray ==> p == q)
      && s.job.generation <= 2
      && (Authorized in s.log ==> forall p :: p in s.live ==> p.generation == 2)
  {
    RunKeepsTold(Initial(bound), steps);
    TwoGenerations(Run(Initial(bound), steps));
  }

  /** Nothing was launched between the two logs: no start, no rotation, no further witness. */
  predicate NothingLaunched(log: seq<Entry>, log': seq<Entry>) {
    && log <= log'
    && forall k :: |log| <= k < |log'| ==> log'[k].Settled? || log'[k].Repaired?
  }

  lemma UnsettledIsOver(s: System)
    requires Told(s) && s.job.unsettled
    ensures !s.job.phase.ProviderStarted? && s.job.process.Some?
  {
  }

  lemma OverStep(s: System, step: Step)
    requires s.job.unsettled && !s.job.phase.ProviderStarted? && s.job.process.Some?
    ensures var s' := Exec(s, step);
      s'.job.unsettled && NothingLaunched(s.log, s'.log) && s'.astray <= s.astray
  {
  }

  /**
   Once a provider was recorded without a birth identity, which may still run, no run starts another one,
   authorizes a rotation or records a second such provider.
   */
  lemma {:induction false} NothingStartsAfterUnsettled(s: System, steps: seq<Step>)
    requires Told(s) && s.job.unsettled
    ensures var s' := Run(s, steps);
      NothingLaunched(s.log, s'.log) && s'.astray <= s.astray && Accepted(s'.job).None?
    decreases |steps|
  {
    if steps == [] {
      AcceptsOne(s);
      AcceptsTwo(s);
    } else {
      var s' := Exec(s, steps[0]);
      UnsettledIsOver(s);
      OverStep(s, steps[0]);
      ExecKeepsTold(s, steps[0]);
      NothingStartsAfterUnsettled(s', steps[1..]);
    }
  }

  /** The same for every run from the start. */
  lemma UnsettledIsFinal(bound: Dispatch, steps: seq<Step>, more: seq<Step>)
    requires Unsettled in Run(Initial(bound), steps).log
    ensures var s := Run(Initial(bound), steps);
      var s' := Run(s, more);
      NothingLaunched(s.log, s'.log) && s'.astray <= s.astray && Accepted(s'.job).None?
  {
    RunKeepsTold(Initial(bound), steps);
    NothingStartsAfterUnsettled(Run(Initial(bound), steps), more);
  }

  // ----- When a step takes effect -----

  function PidOf(process: Option<Process>): Option<nat> {
    if process.Some? then Some(process.value.pid) else None
  }

  /** The entry that a step adds to the history `h` of a job, if it takes effect at all. */
  ghost function Adds(s: System, h: seq<Entry>, step: Step): seq<Entry> {
    var launching := h == [] || h == [Unsettled] || h == [Started(1), Authorized];
    var prepared := !s.job.terminal && s.job.spawn.Some?;
    match step
    case Start(_) =>
      if prepared && h == [] then [Started(1)]
      else if prepared && h == [Started(1), Authorized] then [Started(2)]
      else []
    case Authorize(_) =>
      if !s.job.terminal && h == [Started(1)] && s.guard.None?
         && (forall p :: p in s.live ==> Some(p.pid) != PidOf(s.job.process))
      then [Authorized] else []
    case SettleNoChild(revoked) =>
      if prepared && launching && (s.guard.Some? ==> s.guard.value !in s.live)
         && (s.guard.None? || revoked ==> s.job.spawn.value.status.Pending?)
      then [Settled(if h == [Started(1), Authorized] then 2 else 1)] else []
    case RecordUnsettled(_) =>
      if !s.job.terminal && (h == [] || h == [Settled(1)] || h == [Started(1), Authorized]) then [Unsettled] else []
    case Persist(repair) =>
      if !s.job.terminal && repair.Some? && repair.value.attempted && Started(1) in h
         && (repair.value.valid ==> repair.value.issues == Some(0))
         && (repair.value.issues.Some? ==> h == [Started(1), Authorized, Started(2)])
      then [Repaired(repair.value.valid, repair.value.initialBytes)] else []
    case _ => []
  }

  lemma LaunchGrows(s: System, step: Step)
    requires Told(s) && Owned(s) && (step.Start? || step.Authorize? || step.RecordUnsettled?)
    ensures Exec(s, step).log == s.log + Adds(s, s.log, step)
  {
    if !s.job.terminal {
      NotYetRepaired(s);
    }
  }

  lemma EndGrows(s: System, step: Step)
    requires Told(s) && Owned(s) && (step.SettleNoChild? || step.Persist?)
    ensures Exec(s, step).log == s.log + Adds(s, s.log, step)
  {
    if !s.job.terminal {
      NotYetRepaired(s);
    }
  }

  /**
   In every reachable state a step takes effect exactly when the history so far, the ownership record and what
   still runs allow it, and then adds exactly its entry.
   */
  lemma HistoryGrowsExactly(bound: Dispatch, steps: seq<Step>, step: Step)
    ensures var s := Run(Initial(bound), steps);
      Exec(s, step).log == s.log + Adds(s, s.log, step)
  {
    var s := Run(Initial(bound), steps);
    RunKeepsTold(Initial(bound), steps);
    match step
    case SettleNoChild(_) => EndGrows(s, step);
    case Persist(_) => EndGrows(s, step);
    case Start(_) => LaunchGrows(s, step);
    case Authorize(_) => LaunchGrows(s, step);
    case RecordUnsettled(_) => LaunchGrows(s, step);
    case _ =>
  }

  /** The record after a step that adds to the history. */
  ghost predicate Records(j: Job, j': Job, step: Step) {
    match step
    case Start(pid) =>
      j.spawn.Some? && j.spawn.value.generation == j.generation + 1
      && j' == Job(j.bound, ProviderStarted, j.generation + 1, None,
                   if j.authorized then Some(1) else None, j.authorized, j.authorized,
                   Some(SpawnIntent(j.spawn.value.id, j.bound, j.generation + 1, Registered)),
                   if j.authorized then Some(RotationIntent(j.spawn.value.id, j.bound, 1, 2, Registered)) else None,
                   Some(Process(pid, j.bound, j.generation + 1, true)), false, None, false)
    case Authorize(id) =>
      j' == j.(next := Some(2), authorized := true, rotation := Some(RotationIntent(id, j.bound, 1, 2, Pending)),
               spawn := Some(SpawnIntent(id, j.bound, 2, Pending)))
    case RecordUnsettled(pid) =>
      var unknown := Some(Process(pid, j.bound, j.generation + 1, false));
      if j.generation == 0 then j' == j.(process := unknown, unsettled := true)
      else
        && j.spawn.Some?
        && j' == j.(phase := Failed, generation := 2, next := None, process := unknown, unsettled := true,
                    rotation := Some(RotationIntent(j.spawn.value.id, j.bound, 1, 2, Registered)),
                    spawn := Some(SpawnIntent(j.spawn.value.id, j.bound, 2, Registered)))
    case SettleNoChild(_) =>
      && j.spawn.Some?
      && j' == j.(next := None, spawn := Some(j.spawn.value.(status := NoChild)),
                  rotation := if j.authorized then Some(RotationIntent(j.spawn.value.id, j.bound, 1, 2, NoChild)) else None)
    case Persist(repair) => j' == j.(repair := repair, terminal := true)
    case _ => false
  }

  /** What a step leaves of the ownership record and of the providers that run. */
  ghost predicate Runs(s: System, s': System, step: Step) {
    match step
    case RegisterGuard(pid) => s' != s ==> s'.guard.Some? && s'.live == s.live + {s'.guard.value} && s'.astray == s.astray
    case Exit(p) => s' == s.(live := s'.live, astray := s'.astray)
      && (forall q :: q in s'.live <==> q in s.live && q != p) && (forall q :: q in s'.astray <==> q in s.astray && q != p)
    case RemoveGuard =>
      && s' == s.(guard := s'.guard)
      && s'.guard == if s.guard.Some? && s.guard.value in s.live then s.guard else None
    case RecordUnsettled(pid) =>
      && s'.guard == s.guard && s'.live == s.live
      && s'.astray == s.astray + if s'.log == s.log then {} else {Process(pid, s.job.bound, s.job.generation + 1, false)}
    case SettleNoChild(_) =>
      s'.live == s.live && s'.astray == s.astray && s'.guard == if s'.log == s.log then s.guard else None
    case _ => s'.live == s.live && s'.astray == s.astray && s'.guard == s.guard
  }

  lemma LaunchIsRecorded(s: System, step: Step)
    requires Told(s) && Exec(s, step).log != s.log && (step.Start? || step.Authorize? || step.RecordUnsettled?)
    ensures Records(s.job, Exec(s, step).job, step)
  {
    NotYetRepaired(s);
  }

  lemma EndIsRecorded(s: System, step: Step)
    requires Told(s) && Exec(s, step).log != s.log && !(step.Start? || step.Authorize? || step.RecordUnsettled?)
    ensures Records(s.job, Exec(s, step).job, step)
  {
    if !s.job.terminal {
      NotYetRepaired(s);
    }
  }

  /** A step that adds nothing to the history changes the record only if it prepares, registers or ends the job. */
  ghost predicate Otherwise(j: Job, j': Job, step: Step) {
    match step
    case Persist(None) => j' == if j.terminal then j else j.(repair := None, terminal := true)
    case Prepare(_) => j' == j.(spawn := j'.spawn)
    case RegisterGuard(_) => j' == j.(spawn := j'.spawn)
    case _ => j' == j
  }

  lemma NothingElseIsRecorded(s: System, step: Step)
    requires Exec(s, step).log == s.log
    ensures Otherwise(s.job, Exec(s, step).job, step)
  {
  }

  lemma RunsAreTold(s: System, step: Step)
    ensures Runs(s, Exec(s, step), step)
  {
  }

  /** In every reachable state each step changes exactly these fields of the record, and what runs is exact. */
  lemma EffectsAreRecorded(bound: Dispatch, steps: seq<Step>, step: Step)
    ensures var s := Run(Initial(bound), steps);
      var s' := Exec(s, step);
      && (if s'.log == s.log then Otherwise(s.job, s'.job, step) else Records(s.job, s'.job, step))
      && Runs(s, s', step)
  {
    var s := Run(Initial(bound), steps);
    RunKeepsTold(Initial(bound), steps);
    RunsAreTold(s, step);
    if Exec(s, step).log == s.log {
      NothingElseIsRecorded(s, step);
    } else if step.Start? || step.Authorize? || step.RecordUnsettled? {
      LaunchIsRecorded(s, step);
    } else {
      EndIsRecorded(s, step);
    }
  }

  /** A spawn is prepared, and a bootstrap becomes a provider, exactly when nothing owns the launch. */
  lemma LaunchesAreOwned(bound: Dispatch, steps: seq<Step>, id: nat, pid: nat)
    ensures var s := Run(Initial(bound), steps);
      var p := Process(pid, bound, if Authorized in s.log then 2 else 1, true);
      && (Exec(s, Prepare(id)) != s <==>
            !s.job.terminal && s.guard.None? && s.job.spawn.None? && !(Settled(1) in s.log) && !(Started(1) in s.log))
      && (Exec(s, Prepare(id)) != s ==>
            Exec(s, Prepare(id)) == s.(job := s.job.(spawn := Some(SpawnIntent(id, bound, 1, Pending)))))
      && (Exec(s, RegisterGuard(pid)) != s <==>
            s.guard.None? && s.job.spawn.Some? && s.job.spawn.value.status.Pending?)
      && (Exec(s, RegisterGuard(pid)) != s ==>
            && Exec(s, RegisterGuard(pid)).guard == Some(p) && Exec(s, RegisterGuard(pid)).live == s.live + {p}
            && Exec(s, RegisterGuard(pid)).job == s.job.(spawn := Some(s.job.spawn.value.(status := Registered))))
  {
    var s := Run(Initial(bound), steps);
    RunKeepsTold(Initial(bound), steps);
    RunKeepsBound(Initial(bound), steps);
    HistoryTellsLaunch(s);
  }

  lemma HistoryTellsLaunch(s: System)
    requires Told(s)
    ensures s.job.generation == 0 && s.job.spawn.None? ==> !(Settled(1) in s.log) && !(Started(1) in s.log) && !(Authorized in s.log)
    ensures s.job.spawn.Some? && s.job.spawn.value.status.Pending? ==>
      (Authorized in s.log <==> s.job.spawn.value.generation == 2) && Boundary(s.job, s.job.spawn.value.generation)
    ensures s.job.spawn.None? ==> s.job.generation == 0 && s.job.phase.WorkerStarted? && s.job.next.None?
  {
    assert s.log == Launches(s.log) || s.log == Launches(s.log) + [s.log[|s.log| - 1]];
  }

  lemma {:induction false} RunKeepsBound(s: System, steps: seq<Step>)
    ensures Run(s, steps).job.bound == s.job.bound
    decreases |steps|
  {
    if steps != [] {
      RunKeepsBound(Exec(s, steps[0]), steps[1..]);
    }
  }

  /** From the moment an unsettled provider is recorded, no run starts another one or is accepted. */
  lemma RecordedUnsettledIsFinal(bound: Dispatch, steps: seq<Step>, pid: nat, more: seq<Step>)
    requires var s := Run(Initial(bound), steps);
      !s.job.terminal && (s.log == [] || s.log == [Settled(1)] || s.log == [Started(1), Authorized])
    ensures var s' := Exec(Run(Initial(bound), steps), RecordUnsettled(pid));
      Unsettled in s'.log && NothingLaunched(s'.log, Run(s', more).log) && Accepted(Run(s', more).job).None?
  {
    var s := Run(Initial(bound), steps);
    RunKeepsTold(Initial(bound), steps);
    LaunchGrows(s, RecordUnsettled(pid));
    ExecKeepsTold(s, RecordUnsettled(pid));
    NothingStartsAfterUnsettled(Exec(s, RecordUnsettled(pid)), more);
  }

  lemma {:induction false} RunAppends(s: System, steps: seq<Step>, more: seq<Step>)
    ensures Run(s, steps + more) == Run(Run(s, steps), more)
    decreases |steps|
  {
    if steps == [] {
      assert steps + more == more;
    } else {
      assert (steps + more)[1..] == steps[1..] + more;
      RunAppends(Exec(s, steps[0]), steps[1..], more);
    }
  }

  lemma RunOne(s: System, step: Step)
    ensures Run(s, [step]) == Exec(s, step)
  {
  }

  lemma RunThree(s: System, a: Step, b: Step, c: Step)
    ensures Run(s, [a, b, c]) == Exec(Exec(Exec(s, a), b), c)
  {
    RunAppends(s, [a], [b, c]);
    RunAppends(Exec(s, a), [b], [c]);
    assert [a, b, c] == [a] + [b, c] && [b, c] == [b] + [c];
    RunOne(s, a);
    RunOne(Exec(s, a), b);
    RunOne(Exec(Exec(s, a), b), c);
  }

  const FIRST_ID: nat := 1
  const SECOND_ID: nat := 2

  function FirstLaunch(pid: nat): seq<Step> {
    [Prepare(FIRST_ID), RegisterGuard(pid), Start(pid)]
  }

  function Rotate(provider: Process): seq<Step> {
    [Exit(provider), RemoveGuard, Authorize(SECOND_ID)]
  }

  function SecondLaunch(pid: nat, bytes: nat): seq<Step> {
    [RegisterGuard(pid), Start(pid), Persist(Some(Repair(true, true, bytes, Some(0))))]
  }

  /** A provider that starts is accepted. */
  lemma CleanStartIsAccepted(bound: Dispatch, pid: nat)
    ensures var s, p := Run(Initial(bound), FirstLaunch(pid)), Process(pid, bound, 1, true);
      && Accepted(s.job) == Some(1) && s.guard == Some(p) && s.live == {p}
      && s.job == Job(bound, ProviderStarted, 1, None, None, false, false,
           Some(SpawnIntent(FIRST_ID, bound, 1, Registered)), None, Some(p), false, None, false)
  {
    RunThree(Initial(bound), Prepare(FIRST_ID), RegisterGuard(pid), Start(pid));
  }

  lemma RotationIsPending(bound: Dispatch, pid: nat)
    ensures var s := Run(Run(Initial(bound), FirstLaunch(pid)), Rotate(Process(pid, bound, 1, true)));
      && Accepted(s.job).None? && s.guard.None? && s.live == {}
      && s.job == Job(bound, ProviderStarted, 1, Some(2), None, true, false,
           Some(SpawnIntent(SECOND_ID, bound, 2, Pending)), Some(RotationIntent(SECOND_ID, bound, 1, 2, Pending)),
           Some(Process(pid, bound, 1, true)), false, None, false)
  {
    CleanStartIsAccepted(bound, pid);
    RunThree(Run(Initial(bound), FirstLaunch(pid)), Exit(Process(pid, bound, 1, true)), RemoveGuard, Authorize(SECOND_ID));
  }

  /** A completed repair is accepted exactly if the first answer was not empty. */
  lemma RepairIsAcceptedUnlessEmpty(bound: Dispatch, pid: nat, pid': nat, bytes: nat)
    ensures var s := Run(Run(Run(Initial(bound), FirstLaunch(pid)), Rotate(Process(pid, bound, 1, true))), SecondLaunch(pid', bytes));
      Accepted(s.job) == if bytes > 0 then Some(2) else None
  {
    RotationIsPending(bound, pid);
    RunThree(Run(Run(Initial(bound), FirstLaunch(pid)), Rotate(Process(pid, bound, 1, true))),
             RegisterGuard(pid'), Start(pid'), Persist(Some(Repair(true, true, bytes, Some(0)))));
  }
}
