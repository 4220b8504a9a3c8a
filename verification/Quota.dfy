/**
 Quota: the reservation check on stored usage, and its safety when leases move under a stale read.
 */
module Quota {
  import opened Results
  import opened Leases
  import opened Runs

  // ----- usage: what a set of leases adds up to -----

  /** A quantity that a limit bounds. */
  datatype Meter =
    | WorkspaceCount(workspace: string, purpose: Purpose)
    | WorkspaceCpu(workspace: string)
    | WorkspaceMemory(workspace: string)
    | WorkspaceDisk(workspace: string)
    | ProjectCount(project: string, purpose: Purpose)

  function Weight(m: Meter, r: Reservation): real {
    match m
    case WorkspaceCount(w, p) => if r.workspace == w && r.purpose == p then 1.0 else 0.0
    case WorkspaceCpu(w) => if r.workspace == w then r.profile.cpu else 0.0
    case WorkspaceMemory(w) => if r.workspace == w then r.profile.memoryMiB as real else 0.0
    case WorkspaceDisk(w) => if r.workspace == w then r.profile.diskMiB as real else 0.0
    case ProjectCount(p, u) => if r.project == p && r.purpose == u then 1.0 else 0.0
  }

  /** The share of lease `i` in a total over `states` that leaves out the ids in `skip`. */
  function Share(leases: seq<Lease>, i: nat, m: Meter, states: set<State>, skip: set<nat>): real
    requires i < |leases|
  {
    if leases[i].state in states && i !in skip then Weight(m, leases[i].reservation) else 0.0
  }

  function Total(leases: seq<Lease>, m: Meter, states: set<State>, skip: set<nat>): real
    decreases |leases|
  {
    if leases == [] then 0.0
    else Total(leases[..|leases| - 1], m, states, skip) + Share(leases, |leases| - 1, m, states, skip)
  }

  lemma {:induction false} TotalIsMonotone(leases: seq<Lease>, m: Meter, states: set<State>, skip: set<nat>,
                                           leases2: seq<Lease>, states2: set<State>, skip2: set<nat>)
    requires |leases| == |leases2|
    requires forall i | 0 <= i < |leases| :: Share(leases, i, m, states, skip) <= Share(leases2, i, m, states2, skip2)
    ensures Total(leases, m, states, skip) <= Total(leases2, m, states2, skip2)
    decreases |leases|
  {
    if leases != [] {
      var a, b := leases[..|leases| - 1], leases2[..|leases| - 1];
      forall i | 0 <= i < |a| ensures Share(a, i, m, states, skip) <= Share(b, i, m, states2, skip2) {
        assert Share(a, i, m, states, skip) == Share(leases, i, m, states, skip);
        assert Share(b, i, m, states2, skip2) == Share(leases2, i, m, states2, skip2);
      }
      TotalIsMonotone(a, m, states, skip, b, states2, skip2);
    }
  }

  // ----- the scheduler's view of a request -----

  datatype WorkspaceLimits = WorkspaceLimits(
    builds: nat, previews: nat, maxCpu: real, maxMemoryMiB: nat, maxDiskMiB: nat)

  datatype ProjectLimits = ProjectLimits(builds: nat, previews: nat)

  datatype WorkspaceDoc = WorkspaceDoc(active: bool, limits: WorkspaceLimits)
  datatype ProjectDoc = ProjectDoc(workspace: Option<string>, owner: string, limits: ProjectLimits)
  datatype BranchDoc = BranchDoc(active: bool, workspace: string, project: string)

  /** The documents a request's ids lead to, and whether its user is a member of the workspace. */
  datatype Scope = Scope(
    workspace: Option<WorkspaceDoc>, project: Option<ProjectDoc>, branch: Option<BranchDoc>, member: bool)

  datatype Request = Request(
    reservation: Reservation, user: string, hasRun: bool, hasSnapshot: bool, ofSnapshot: bool, expiresAt: int)

  datatype Refusal = PolicyDenied | BranchBusy | QuotaExceeded | OwnershipMismatch

  predicate WellShaped(q: Request) {
    match q.reservation.purpose
    case Build => q.hasRun
    case Preview => q.hasSnapshot && q.ofSnapshot
  }

  predicate Accessible(q: Request, s: Scope) {
    var r := q.reservation;
    && s.workspace.Some? && s.workspace.value.active
    && s.project.Some? && s.project.value.workspace == Some(r.workspace)
    && s.branch.Some? && s.branch.value == BranchDoc(true, r.workspace, r.project)
    && (s.member || s.project.value.owner == q.user)
  }

  datatype Usage = Usage(builds: real, previews: real, cpu: real, memoryMiB: real, diskMiB: real)

  function UsageOf(leases: seq<Lease>, workspace: string): Usage {
    Usage(Total(leases, WorkspaceCount(workspace, Build), OCCUPYING, {}),
          Total(leases, WorkspaceCount(workspace, Preview), OCCUPYING, {}),
          Total(leases, WorkspaceCpu(workspace), OCCUPYING, {}),
          Total(leases, WorkspaceMemory(workspace), OCCUPYING, {}),
          Total(leases, WorkspaceDisk(workspace), OCCUPYING, {}))
  }

  function ProjectLimit(l: ProjectLimits, p: Purpose): real {
    match p case Build => l.builds as real case Preview => l.previews as real
  }

  function WorkspaceLimit(l: WorkspaceLimits, p: Purpose): real {
    match p case Build => l.builds as real case Preview => l.previews as real
  }

  /** The quota check, on a project count and a workspace usage that were read earlier. */
  predicate Fits(r: Reservation, projectCount: real, usage: Usage, w: WorkspaceLimits, p: ProjectLimits) {
    && projectCount + 1.0 <= ProjectLimit(p, r.purpose)
    && (if r.purpose == Build then usage.builds else usage.previews) + 1.0 <= WorkspaceLimit(w, r.purpose)
    && usage.cpu + r.profile.cpu <= w.maxCpu
    && usage.memoryMiB + r.profile.memoryMiB as real <= w.maxMemoryMiB as real
    && usage.diskMiB + r.profile.diskMiB as real <= w.maxDiskMiB as real
  }

  datatype Reserving = Reserving(outcome: Result<nat, Refusal>, leases: seq<Lease>)

  function OfWritten(w: Written): Reserving {
    Reserving(match w.update
              case Changed(id) => Ok(id)
              case Mismatch => Err(OwnershipMismatch)
              case _ => Err(BranchBusy),
              w.leases)
  }

  /** A whole uninterrupted reservation. */
  function Uninterrupted(leases: seq<Lease>, q: Request, s: Scope): Reserving {
    var r := q.reservation;
    if !WellShaped(q) || !Accessible(q, s) then Reserving(Err(PolicyDenied), leases)
    else if FindKey(leases, r.key) < |leases| then OfWritten(CreateReserved(leases, r, q.expiresAt))
    else if r.purpose == Build && BranchTaken(leases, |leases|, r.branch) then Reserving(Err(BranchBusy), leases)
    else if !Fits(r, Total(leases, ProjectCount(r.project, r.purpose), OCCUPYING, {}), UsageOf(leases, r.workspace),
                  s.workspace.value.limits, s.project.value.limits) then Reserving(Err(QuotaExceeded), leases)
    else OfWritten(CreateReserved(leases, r, q.expiresAt))
  }

  class QuotaScheduler {
    const repository: LeaseStore

    constructor (repository: LeaseStore)
      ensures this.repository == repository
    {
      this.repository := repository;
    }

    method CountProject(project: string, purpose: Purpose) returns (count: real)
      ensures count == Total(repository.leases, ProjectCount(project, purpose), OCCUPYING, {})
    {
      count := 0.0;
      var leases := repository.leases;
      for i := 0 to |leases|
        invariant count == Total(leases[..i], ProjectCount(project, purpose), OCCUPYING, {})
      {
        assert leases[..i + 1][..i] == leases[..i];
        var l := leases[i];
        if l.state in OCCUPYING && l.reservation.project == project && l.reservation.purpose == purpose {
          count := count + 1.0;
        }
      }
      assert leases[..|leases|] == leases;
    }

    method MeasureWorkspace(workspace: string) returns (usage: Usage)
      ensures usage == UsageOf(repository.leases, workspace)
    {
      usage := Usage(0.0, 0.0, 0.0, 0.0, 0.0);
      var leases := repository.leases;
      for i := 0 to |leases|
        invariant usage == UsageOf(leases[..i], workspace)
      {
        assert leases[..i + 1][..i] == leases[..i];
        var l := leases[i];
        if l.state in OCCUPYING && l.reservation.workspace == workspace {
          var profile := l.reservation.profile;
          usage := Usage(
            usage.builds + if l.reservation.purpose == Build then 1.0 else 0.0,
            usage.previews + if l.reservation.purpose == Preview then 1.0 else 0.0,
            usage.cpu + profile.cpu, usage.memoryMiB + profile.memoryMiB as real,
            usage.diskMiB + profile.diskMiB as real);
        }
      }
      assert leases[..|leases|] == leases;
    }

    method Insert(q: Request) returns (outcome: Result<nat, Refusal>)
      modifies repository
      ensures Reserving(outcome, repository.leases) ==
              OfWritten(CreateReserved(old(repository.leases), q.reservation, q.expiresAt))
    {
      var update := repository.Create(q.reservation, q.expiresAt);
      match update {
        case Changed(id) => outcome := Ok(id);
        case Mismatch => outcome := Err(OwnershipMismatch);
        case _ => outcome := Err(BranchBusy);
      }
    }

    method ReserveLease(q: Request, s: Scope) returns (outcome: Result<nat, Refusal>)
      modifies repository
      ensures Reserving(outcome, repository.leases) == Uninterrupted(old(repository.leases), q, s)
    {
      var r := q.reservation;
      if !WellShaped(q) || !Accessible(q, s) {
        return Err(PolicyDenied);
      }
      var existing := repository.FindByProvisioningKey(r.key);
      if existing < |repository.leases| {
        outcome := Insert(q);
        return;
      }
      if r.purpose == Build {
        var busy := repository.IsBranchTaken(|repository.leases|, r.branch);
        if busy {
          return Err(BranchBusy);
        }
      }
      var projectCount := CountProject(r.project, r.purpose);
      var usage := MeasureWorkspace(r.workspace);
      if !Fits(r, projectCount, usage, s.workspace.value.limits, s.project.value.limits) {
        return Err(QuotaExceeded);
      }
      outcome := Insert(q);
    }
  }

  // ----- many reservers, one lock per workspace, leases moving meanwhile -----

  /** The fixed part: the limits, and the workspace each project belongs to. */
  datatype World = World(
    workspaceLimits: string -> WorkspaceLimits, projectLimits: string -> ProjectLimits, home: string -> string)

  /** The holder of a workspace's lock: its request and what it has read so far. */
  datatype Holder = Holder(q: Request, checked: bool, projectCount: Option<real>, usage: Option<Usage>)

  /** `back` is a record for the proof: the leases that entered terminating from failed or lost. */
  datatype Shop = Shop(leases: seq<Lease>, holders: map<string, Holder>, back: set<nat>)

  datatype Step =
    | Acquire(q: Request)
    | CheckKeyAndBranch(w: string)
    | ReadProject(w: string)
    | ReadWorkspace(w: string)
    | InsertLease(w: string)
    | Release(w: string)          // after an answer, an error or a crash
    | Write(i: nat, op: Op)       // anybody else's write to an existing lease

  predicate InScope(world: World, q: Request) {
    WellShaped(q) && world.home(q.reservation.project) == q.reservation.workspace && q.reservation.profile.cpu > 0.0
  }

  function With(s: Shop, w: string, h: Holder): Shop {
    s.(holders := s.holders[w := h])
  }

  function Without(s: Shop, w: string): Shop {
    s.(holders := s.holders - {w})
  }

  predicate Enabled(world: World, s: Shop, step: Step) {
    match step
    case Acquire(q) => InScope(world, q) && q.reservation.workspace !in s.holders
    case CheckKeyAndBranch(w) =>
      w in s.holders && !s.holders[w].checked
      && var r := s.holders[w].q.reservation;
         FindKey(s.leases, r.key) == |s.leases| && (r.purpose == Build ==> !BranchTaken(s.leases, |s.leases|, r.branch))
    case ReadProject(w) => w in s.holders && s.holders[w].checked
    case ReadWorkspace(w) => w in s.holders && s.holders[w].checked
    case InsertLease(w) =>
      w in s.holders && s.holders[w].projectCount.Some? && s.holders[w].usage.Some?
      && var h := s.holders[w];
         Fits(h.q.reservation, h.projectCount.value, h.usage.value,
              world.workspaceLimits(w), world.projectLimits(h.q.reservation.project))
    case Release(w) => w in s.holders
    case Write(i, op) => i < |s.leases| && !op.Reserve?
  }

  function Next(world: World, s: Shop, step: Step): Shop
    requires Enabled(world, s, step)
  {
    match step
    case Acquire(q) => With(s, q.reservation.workspace, Holder(q, false, None, None))
    case CheckKeyAndBranch(w) => With(s, w, s.holders[w].(checked := true))
    case ReadProject(w) =>
      var r := s.holders[w].q.reservation;
      With(s, w,
           s.holders[w].(projectCount := Some(Total(s.leases, ProjectCount(r.project, r.purpose), OCCUPYING, {}))))
    case ReadWorkspace(w) => With(s, w, s.holders[w].(usage := Some(UsageOf(s.leases, w))))
    case InsertLease(w) =>
      var q := s.holders[w].q;
      Without(s.(leases := CreateReserved(s.leases, q.reservation, q.expiresAt).leases), w)
    case Release(w) => Without(s, w)
    case Write(i, op) =>
      var after := Apply(s.leases, i, op).leases;
      var came := s.leases[i].state in {Failed, Lost} && after[i].state == Terminating;
      Shop(after, s.holders, if came then s.back + {i} else s.back)
  }

  // ----- the invariant -----

  function Limit(world: World, m: Meter): real {
    match m
    case WorkspaceCount(w, p) => WorkspaceLimit(world.workspaceLimits(w), p)
    case WorkspaceCpu(w) => world.workspaceLimits(w).maxCpu
    case WorkspaceMemory(w) => world.workspaceLimits(w).maxMemoryMiB as real
    case WorkspaceDisk(w) => world.workspaceLimits(w).maxDiskMiB as real
    case ProjectCount(p, u) => ProjectLimit(world.projectLimits(p), u)
  }

  /** What counts against a limit: everything occupying, but not what came back. */
  function Held(s: Shop, m: Meter): real {
    Total(s.leases, m, OCCUPYING, s.back)
  }

  ghost predicate Sane(world: World, leases: seq<Lease>, back: set<nat>) {
    && (forall i | 0 <= i < |leases| :: world.home(leases[i].reservation.project) == leases[i].reservation.workspace)
    && (forall i | 0 <= i < |leases| :: leases[i].reservation.profile.cpu > 0.0)
    && (forall i | i in back :: i < |leases| && leases[i].state in {Terminating, Terminated})
  }

  /** What a holder has read is at least what is held now. */
  ghost predicate Covers(leases: seq<Lease>, back: set<nat>, w: string, h: Holder) {
    && (h.projectCount.Some? ==>
          var r := h.q.reservation;
          Total(leases, ProjectCount(r.project, r.purpose), OCCUPYING, back) <= h.projectCount.value)
    && (h.usage.Some? ==> UsageCovers(leases, back, w, h.usage.value))
  }

  ghost predicate UsageCovers(leases: seq<Lease>, back: set<nat>, w: string, u: Usage) {
    && Total(leases, WorkspaceCount(w, Build), OCCUPYING, back) <= u.builds
    && Total(leases, WorkspaceCount(w, Preview), OCCUPYING, back) <= u.previews
    && Total(leases, WorkspaceCpu(w), OCCUPYING, back) <= u.cpu
    && Total(leases, WorkspaceMemory(w), OCCUPYING, back) <= u.memoryMiB
    && Total(leases, WorkspaceDisk(w), OCCUPYING, back) <= u.diskMiB
  }

  ghost predicate ReadsCover(s: Shop, w: string) {
    w in s.holders ==> Covers(s.leases, s.back, w, s.holders[w])
  }

  ghost predicate HoldersFit(world: World, s: Shop) {
    forall w | w in s.holders :: InScope(world, s.holders[w].q) && s.holders[w].q.reservation.workspace == w
  }

  ghost predicate Inv(world: World, s: Shop) {
    && Sane(world, s.leases, s.back)
    && HoldersFit(world, s)
    && (forall w :: ReadsCover(s, w))
    && (forall m :: Held(s, m) <= Limit(world, m))
  }

  // ----- its steps -----

  lemma WeightIsPositive(m: Meter, r: Reservation)
    requires r.profile.cpu > 0.0
    ensures Weight(m, r) >= 0.0
  {
  }

  /** Leaving out what came back only lowers a total. */
  lemma HeldIsAtMostOccupied(world: World, s: Shop, m: Meter)
    requires Sane(world, s.leases, s.back)
    ensures Total(s.leases, m, ACTIVE, {}) <= Held(s, m) <= Total(s.leases, m, OCCUPYING, {})
  {
    forall i | 0 <= i < |s.leases|
      ensures Share(s.leases, i, m, ACTIVE, {}) <= Share(s.leases, i, m, OCCUPYING, s.back)
           <= Share(s.leases, i, m, OCCUPYING, {})
    {
      WeightIsPositive(m, s.leases[i].reservation);
    }
    TotalIsMonotone(s.leases, m, ACTIVE, {}, s.leases, OCCUPYING, s.back);
    TotalIsMonotone(s.leases, m, OCCUPYING, s.back, s.leases, OCCUPYING, {});
  }

  /** No write by anybody else raises what is held: no lease becomes active, and what came back is left out. */
  lemma WriteLowersHeld(world: World, s: Shop, i: nat, op: Op, m: Meter)
    requires Sane(world, s.leases, s.back) && Enabled(world, s, Write(i, op))
    ensures Held(Next(world, s, Write(i, op)), m) <= Held(s, m)
  {
    var t := Next(world, s, Write(i, op));
    WritesEvolve(s.leases, i, op);
    forall j | 0 <= j < |s.leases|
      ensures Share(t.leases, j, m, OCCUPYING, t.back) <= Share(s.leases, j, m, OCCUPYING, s.back)
    {
      WeightIsPositive(m, s.leases[j].reservation);
      assert Successor(s.leases[j], t.leases[j]);
      if j != i {
        OnlyWritten(s.leases, i, op, j);
      }
    }
    WriteKeepsLength(s.leases, i, op);
    TotalIsMonotone(t.leases, m, OCCUPYING, t.back, s.leases, OCCUPYING, s.back);
  }

  lemma WriteKeepsLength(leases: seq<Lease>, i: nat, op: Op)
    requires !op.Reserve?
    ensures |Apply(leases, i, op).leases| == |leases|
  {
  }

  lemma OnlyWritten(leases: seq<Lease>, i: nat, op: Op, j: nat)
    requires !op.Reserve? && j < |leases| && j != i
    ensures |Apply(leases, i, op).leases| == |leases| && Apply(leases, i, op).leases[j] == leases[j]
  {
  }

  lemma WriteKeepsSane(world: World, s: Shop, i: nat, op: Op)
    requires Sane(world, s.leases, s.back) && Enabled(world, s, Write(i, op))
    ensures var t := Next(world, s, Write(i, op)); Sane(world, t.leases, t.back)
  {
    var t := Next(world, s, Write(i, op));
    WritesEvolve(s.leases, i, op);
    WriteKeepsLength(s.leases, i, op);
    forall j | 0 <= j < |s.leases|
      ensures t.leases[j].reservation == s.leases[j].reservation
      ensures j in t.back ==> t.leases[j].state in {Terminating, Terminated}
    {
      assert Successor(s.leases[j], t.leases[j]);
    }
  }

  lemma WriteKeepsInv(world: World, s: Shop, i: nat, op: Op)
    requires Inv(world, s) && Enabled(world, s, Write(i, op))
    ensures Inv(world, Next(world, s, Write(i, op)))
  {
    var t := Next(world, s, Write(i, op));
    WriteKeepsSane(world, s, i, op);
    forall m ensures Held(t, m) <= Held(s, m) {
      WriteLowersHeld(world, s, i, op, m);
    }
    forall w ensures ReadsCover(t, w) {
      assert ReadsCover(s, w);
      if w in s.holders {
        LowerIsCovered(s, t, w, s.holders[w]);
      }
    }
    forall m ensures Held(t, m) <= Limit(world, m) {
      assert Held(s, m) <= Limit(world, m);
    }
  }

  lemma LowerIsCovered(s: Shop, t: Shop, w: string, h: Holder)
    requires Covers(s.leases, s.back, w, h) && forall m :: Held(t, m) <= Held(s, m)
    ensures Covers(t.leases, t.back, w, h)
  {
    var r := h.q.reservation;
    assert Held(t, ProjectCount(r.project, r.purpose)) <= Held(s, ProjectCount(r.project, r.purpose));
    assert Held(t, WorkspaceCount(w, Build)) <= Held(s, WorkspaceCount(w, Build));
    assert Held(t, WorkspaceCount(w, Preview)) <= Held(s, WorkspaceCount(w, Preview));
    assert Held(t, WorkspaceCpu(w)) <= Held(s, WorkspaceCpu(w));
    assert Held(t, WorkspaceMemory(w)) <= Held(s, WorkspaceMemory(w));
    assert Held(t, WorkspaceDisk(w)) <= Held(s, WorkspaceDisk(w));
  }

  lemma HeldAfterAppend(leases: seq<Lease>, l: Lease, m: Meter, back: set<nat>)
    requires forall i | i in back :: i < |leases|
    requires l.state in OCCUPYING
    ensures Total(leases + [l], m, OCCUPYING, back) == Total(leases, m, OCCUPYING, back) + Weight(m, l.reservation)
  {
    var all := leases + [l];
    assert all[..|all| - 1] == leases && all[|all| - 1] == l;
  }

  /** A reservation that fits what was read keeps every limit, its own and everybody else's. */
  lemma FittingKeepsLimits(world: World, s: Shop, w: string, m: Meter)
    requires Inv(world, s) && Enabled(world, s, InsertLease(w))
    ensures Held(s, m) + Weight(m, s.holders[w].q.reservation) <= Limit(world, m)
  {
    assert ReadsCover(s, w);
    assert Held(s, m) <= Limit(world, m);
  }

  /** What weighs nothing on a meter does not move it. */
  lemma UnmovedByAppend(leases: seq<Lease>, l: Lease, m: Meter, back: set<nat>)
    requires (forall i | i in back :: i < |leases|) && l.state in OCCUPYING && Weight(m, l.reservation) == 0.0
    ensures Total(leases + [l], m, OCCUPYING, back) == Total(leases, m, OCCUPYING, back)
  {
    HeldAfterAppend(leases, l, m, back);
  }

  lemma OtherUsageIsCovered(leases: seq<Lease>, back: set<nat>, l: Lease, w: string, u: Usage)
    requires (forall i | i in back :: i < |leases|) && l.state in OCCUPYING && l.reservation.workspace != w
    requires UsageCovers(leases, back, w, u)
    ensures UsageCovers(leases + [l], back, w, u)
  {
    UnmovedByAppend(leases, l, WorkspaceCount(w, Build), back);
    UnmovedByAppend(leases, l, WorkspaceCount(w, Preview), back);
    UnmovedByAppend(leases, l, WorkspaceCpu(w), back);
    UnmovedByAppend(leases, l, WorkspaceMemory(w), back);
    UnmovedByAppend(leases, l, WorkspaceDisk(w), back);
  }

  /** A lease in one workspace weighs nothing on what another workspace's holder has read. */
  lemma OtherReadsAreCovered(leases: seq<Lease>, back: set<nat>, l: Lease, w: string, h: Holder)
    requires (forall i | i in back :: i < |leases|) && l.state in OCCUPYING
    requires l.reservation.workspace != w && l.reservation.project != h.q.reservation.project
    requires Covers(leases, back, w, h)
    ensures Covers(leases + [l], back, w, h)
  {
    var r := h.q.reservation;
    UnmovedByAppend(leases, l, ProjectCount(r.project, r.purpose), back);
    if h.usage.Some? {
      OtherUsageIsCovered(leases, back, l, w, h.usage.value);
    }
  }

  lemma InsertAppends(leases: seq<Lease>, q: Request)
    ensures var after := CreateReserved(leases, q.reservation, q.expiresAt).leases;
            after == leases || after == leases + [NewLease(q.reservation, q.expiresAt)]
  {
  }

  /** So a reservation in one workspace leaves the reads for every other one as they were. */
  lemma InsertKeepsOtherReads(world: World, s: Shop, w: string, w2: string)
    requires Inv(world, s) && Enabled(world, s, InsertLease(w)) && w2 != w
    ensures ReadsCover(Next(world, s, InsertLease(w)), w2)
  {
    assert ReadsCover(s, w2);
    if w2 in s.holders {
      var q, h := s.holders[w].q, s.holders[w2];
      InsertAppends(s.leases, q);
      assert InScope(world, q) && InScope(world, h.q);
      OtherReadsAreCovered(s.leases, s.back, NewLease(q.reservation, q.expiresAt), w2, h);
    }
  }

  lemma InsertKeepsInv(world: World, s: Shop, w: string)
    requires Inv(world, s) && Enabled(world, s, InsertLease(w))
    ensures Inv(world, Next(world, s, InsertLease(w)))
  {
    var t := Next(world, s, InsertLease(w));
    var q := s.holders[w].q;
    forall w2 ensures ReadsCover(t, w2) {
      if w2 != w {
        InsertKeepsOtherReads(world, s, w, w2);
      }
    }
    forall m ensures Held(t, m) <= Limit(world, m) {
      FittingKeepsLimits(world, s, w, m);
      HeldAfterAppend(s.leases, NewLease(q.reservation, q.expiresAt), m, s.back);
      WeightIsPositive(m, q.reservation);
    }
  }

  /** Reading covers what is held, because the read counts everything that occupies. */
  lemma ReadIsCovered(world: World, s: Shop, w: string, h: Holder)
    requires Sane(world, s.leases, s.back)
    requires h.usage.Some? ==> h.usage.value == UsageOf(s.leases, w)
    requires var r := h.q.reservation;
             h.projectCount.Some? ==>
                   h.projectCount.value == Total(s.leases, ProjectCount(r.project, r.purpose), OCCUPYING, {})
    ensures Covers(s.leases, s.back, w, h)
  {
    var r := h.q.reservation;
    HeldIsAtMostOccupied(world, s, ProjectCount(r.project, r.purpose));
    HeldIsAtMostOccupied(world, s, WorkspaceCount(w, Build));
    HeldIsAtMostOccupied(world, s, WorkspaceCount(w, Preview));
    HeldIsAtMostOccupied(world, s, WorkspaceCpu(w));
    HeldIsAtMostOccupied(world, s, WorkspaceMemory(w));
    HeldIsAtMostOccupied(world, s, WorkspaceDisk(w));
  }

  /** A holder may learn one read after the other. */
  lemma BothAreCovered(leases: seq<Lease>, back: set<nat>, w: string, before: Holder, read: Holder, h: Holder)
    requires Covers(leases, back, w, before) && Covers(leases, back, w, read)
    requires h.q.reservation == before.q.reservation == read.q.reservation
    requires h.projectCount in {before.projectCount, read.projectCount} && h.usage in {before.usage, read.usage}
    ensures Covers(leases, back, w, h)
  {
  }

  lemma HolderIsCovered(world: World, s: Shop, step: Step, w: string)
    requires Inv(world, s) && Enabled(world, s, step) && !step.InsertLease? && !step.Write?
    ensures ReadsCover(Next(world, s, step), w)
  {
    assert ReadsCover(s, w);
    var t := Next(world, s, step);
    if w in t.holders && (step.ReadProject? || step.ReadWorkspace?) && step.w == w {
      var h := t.holders[w];
      var read := if step.ReadProject? then h.(usage := None) else h.(projectCount := None);
      ReadIsCovered(world, s, w, read);
      BothAreCovered(s.leases, s.back, w, s.holders[w], read, h);
    }
  }

  lemma ReadKeepsInv(world: World, s: Shop, step: Step)
    requires Inv(world, s) && Enabled(world, s, step) && !step.InsertLease? && !step.Write?
    ensures Inv(world, Next(world, s, step))
  {
    var t := Next(world, s, step);
    assert t.leases == s.leases && t.back == s.back;
    forall w ensures ReadsCover(t, w) {
      HolderIsCovered(world, s, step, w);
    }
    forall m ensures Held(t, m) <= Limit(world, m) {
      assert Held(s, m) <= Limit(world, m);
    }
  }

  lemma StepKeepsInv(world: World, s: Shop, step: Step)
    requires Inv(world, s) && Enabled(world, s, step)
    ensures Inv(world, Next(world, s, step))
  {
    match step
    case InsertLease(w) => InsertKeepsInv(world, s, w);
    case Write(i, op) => WriteKeepsInv(world, s, i, op);
    case _ => ReadKeepsInv(world, s, step);
  }

  // ----- whole runs -----

  ghost predicate Initial(world: World, s: Shop) {
    s == Shop([], map[], {}) && forall w :: world.workspaceLimits(w).maxCpu >= 0.0
  }

  /**
   What is asked of a lease that comes back: whether it may at all, must fit next to everything that
   occupies then, and must find that whoever reserves in its workspace has read nothing yet. As it
   stands, a lease may come back and nothing is asked of it.
   */
  datatype Policy = Policy(mayReturn: bool, mustFit: bool, noReads: bool)

  predicate Returns(leases: seq<Lease>, i: nat, op: Op) {
    && i < |leases| == |Apply(leases, i, op).leases|
    && leases[i].state in {Failed, Lost} && Apply(leases, i, op).leases[i].state == Terminating
  }

  /** The check a reservation makes, on what occupies now. */
  predicate FitsNow(world: World, leases: seq<Lease>, r: Reservation) {
    Fits(r, Total(leases, ProjectCount(r.project, r.purpose), OCCUPYING, {}), UsageOf(leases, r.workspace),
         world.workspaceLimits(r.workspace), world.projectLimits(r.project))
  }

  predicate NothingRead(s: Shop, w: string) {
    w in s.holders ==> s.holders[w].projectCount == None && s.holders[w].usage == None
  }

  predicate MayReturn(world: World, p: Policy, s: Shop, i: nat)
    requires i < |s.leases|
  {
    var r := s.leases[i].reservation;
    p.mayReturn && (p.mustFit ==> FitsNow(world, s.leases, r)) && (p.noReads ==> NothingRead(s, r.workspace))
  }

  predicate Permitted(world: World, p: Policy, s: Shop, step: Step) {
    && Enabled(world, s, step)
    && (step.Write? && Returns(s.leases, step.i, step.op) ==> MayReturn(world, p, s, step.i))
  }

  ghost function Protocol(world: World, p: Policy): Machine<Shop, Step> {
    Machine((s, x) => Permitted(world, p, s, x), (s, x) => if Enabled(world, s, x) then Next(world, s, x) else s)
  }

  lemma {:induction false} RunKeepsInv(world: World, p: Policy, s: Shop, steps: seq<Step>, t: Shop)
    requires Inv(world, s) && Run(Protocol(world, p), s, steps, t)
    ensures Inv(world, t)
    decreases |steps|
  {
    if steps != [] {
      StepKeepsInv(world, s, steps[0]);
      RunKeepsInv(world, p, Next(world, s, steps[0]), steps[1..], t);
    }
  }

  /**
   Quota safety on stale reads: after any run, whatever may come back, what reserved, provisioning,
   ready and running leases add up to is within every limit; with terminating leases too, unless one
   came back.
   */
  lemma QuotaIsSafe(world: World, p: Policy, s: Shop, steps: seq<Step>, t: Shop, m: Meter)
    requires Initial(world, s) && Run(Protocol(world, p), s, steps, t)
    ensures Total(t.leases, m, ACTIVE, {}) <= Limit(world, m)
    ensures t.back == {} ==> Total(t.leases, m, OCCUPYING, {}) <= Limit(world, m)
  {
    InitialInv(world, s);
    RunKeepsInv(world, p, s, steps, t);
    HeldIsAtMostOccupied(world, t, m);
    assert Held(t, m) <= Limit(world, m);
  }

  lemma InitialInv(world: World, s: Shop)
    requires Initial(world, s)
    ensures Inv(world, s)
  {
    forall m ensures Held(s, m) <= Limit(world, m) {
      assert Held(s, m) == 0.0;
    }
  }

  // ----- with terminating leases: the exact excess -----

  lemma {:induction false} TotalAfterUpdate(leases: seq<Lease>, i: nat, l: Lease, m: Meter, states: set<State>)
    requires i < |leases|
    ensures Total(leases[i := l], m, states, {})
            == Total(leases, m, states, {}) - Share(leases, i, m, states, {}) + Share(leases[i := l], i, m, states, {})
    decreases |leases|
  {
    var n := |leases| - 1;
    if i == n {
      assert leases[i := l][..n] == leases[..n];
    } else {
      assert leases[i := l][..n] == leases[..n][i := l];
      TotalAfterUpdate(leases[..n], i, l, m, states);
    }
  }

  lemma ReturnIsUpdate(leases: seq<Lease>, i: nat, op: Op)
    requires Returns(leases, i, op)
    ensures Apply(leases, i, op).leases == leases[i := leases[i].(state := Terminating)]
  {
  }

  /**
   A lease that comes back from failed or lost adds its whole weight: the occupying total stays
   within the limit exactly when the lease would have fitted next to everything occupying before.
   */
  lemma ComingBackFitsExactly(world: World, s: Shop, i: nat, m: Meter)
    requires i < |s.leases| && s.leases[i].state in {Failed, Lost}
    requires !IndexRefuses(s.leases, i, Terminating)
    ensures var t := Next(world, s, Write(i, Move([s.leases[i].state], Terminating)));
            && i in t.back
            && (Total(t.leases, m, OCCUPYING, {}) <= Limit(world, m) <==>
                Total(s.leases, m, OCCUPYING, {}) + Weight(m, s.leases[i].reservation) <= Limit(world, m))
  {
    var l := s.leases[i];
    assert Apply(s.leases, i, Move([l.state], Terminating)).leases == s.leases[i := l.(state := Terminating)];
    TotalAfterUpdate(s.leases, i, l.(state := Terminating), m, OCCUPYING);
  }

  // ----- exactly when every run keeps the occupying quota -----

  /** The invariant with every lease counted, come back or not. */
  ghost predicate Tight(world: World, s: Shop) {
    Inv(world, s.(back := {}))
  }

  /** Coming back adds the weight of the lease to every total. */
  lemma ReturnAddsWeight(leases: seq<Lease>, i: nat, op: Op, m: Meter)
    requires Returns(leases, i, op)
    ensures Total(Apply(leases, i, op).leases, m, OCCUPYING, {})
            == Total(leases, m, OCCUPYING, {}) + Weight(m, leases[i].reservation)
  {
    ReturnIsUpdate(leases, i, op);
    TotalAfterUpdate(leases, i, leases[i].(state := Terminating), m, OCCUPYING);
  }

  lemma FittingReturnIsWithin(world: World, leases: seq<Lease>, i: nat, op: Op, m: Meter)
    requires Returns(leases, i, op) && FitsNow(world, leases, leases[i].reservation)
    requires Total(leases, m, OCCUPYING, {}) <= Limit(world, m)
    ensures Total(Apply(leases, i, op).leases, m, OCCUPYING, {}) <= Limit(world, m)
  {
    ReturnAddsWeight(leases, i, op, m);
  }

  lemma ReturnKeepsUsage(leases: seq<Lease>, i: nat, op: Op, w: string, u: Usage)
    requires Returns(leases, i, op) && leases[i].reservation.workspace != w && UsageCovers(leases, {}, w, u)
    ensures UsageCovers(Apply(leases, i, op).leases, {}, w, u)
  {
    ReturnAddsWeight(leases, i, op, WorkspaceCount(w, Build));
    ReturnAddsWeight(leases, i, op, WorkspaceCount(w, Preview));
    ReturnAddsWeight(leases, i, op, WorkspaceCpu(w));
    ReturnAddsWeight(leases, i, op, WorkspaceMemory(w));
    ReturnAddsWeight(leases, i, op, WorkspaceDisk(w));
  }

  /** What the reservers of other workspaces have read covers what is held after a return. */
  lemma ReturnKeepsReads(leases: seq<Lease>, i: nat, op: Op, w: string, h: Holder)
    requires Returns(leases, i, op) && Covers(leases, {}, w, h)
    requires leases[i].reservation.workspace != w && leases[i].reservation.project != h.q.reservation.project
    ensures Covers(Apply(leases, i, op).leases, {}, w, h)
  {
    var r := h.q.reservation;
    ReturnAddsWeight(leases, i, op, ProjectCount(r.project, r.purpose));
    if h.usage.Some? {
      ReturnKeepsUsage(leases, i, op, w, h.usage.value);
    }
  }

  lemma ReturnKeepsSane(world: World, leases: seq<Lease>, i: nat, op: Op)
    requires Returns(leases, i, op) && Sane(world, leases, {})
    ensures Sane(world, Apply(leases, i, op).leases, {})
  {
    ReturnIsUpdate(leases, i, op);
  }

  /** A lease that comes back fitting, and before the reserver of its workspace has read, breaks nothing. */
  lemma GuardedReturnKeepsTight(world: World, s: Shop, i: nat, op: Op, t: Shop)
    requires Tight(world, s) && Returns(s.leases, i, op)
    requires FitsNow(world, s.leases, s.leases[i].reservation) && NothingRead(s, s.leases[i].reservation.workspace)
    requires t.leases == Apply(s.leases, i, op).leases && t.holders == s.holders
    ensures Tight(world, t)
  {
    var before, after := s.(back := {}), t.(back := {});
    ReturnKeepsSane(world, s.leases, i, op);
    forall w ensures ReadsCover(after, w) {
      assert ReadsCover(before, w);
      if w in s.holders && w != s.leases[i].reservation.workspace {
        assert InScope(world, s.holders[w].q);
        ReturnKeepsReads(s.leases, i, op, w, s.holders[w]);
      }
    }
    forall m ensures Held(after, m) <= Limit(world, m) {
      assert Held(before, m) <= Limit(world, m);
      FittingReturnIsWithin(world, s.leases, i, op, m);
    }
  }

  /** The record of what came back has no effect on anything else. */
  lemma RecordHasNoEffect(world: World, s: Shop, step: Step)
    requires Enabled(world, s, step) && !(step.Write? && Returns(s.leases, step.i, step.op))
    ensures Enabled(world, s.(back := {}), step)
    ensures Next(world, s.(back := {}), step) == Next(world, s, step).(back := {})
  {
    if step.Write? {
      WriteKeepsLength(s.leases, step.i, step.op);
    }
  }

  lemma StepKeepsTight(world: World, p: Policy, s: Shop, step: Step)
    requires Tight(world, s) && Permitted(world, p, s, step) && (p.mayReturn ==> p.mustFit && p.noReads)
    ensures Tight(world, Next(world, s, step))
  {
    if step.Write? && Returns(s.leases, step.i, step.op) {
      GuardedReturnKeepsTight(world, s, step.i, step.op, Next(world, s, step));
    } else {
      RecordHasNoEffect(world, s, step);
      StepKeepsInv(world, s.(back := {}), step);
    }
  }

  lemma {:induction false} RunKeepsTight(world: World, p: Policy, s: Shop, steps: seq<Step>, t: Shop)
    requires Tight(world, s) && Run(Protocol(world, p), s, steps, t) && (p.mayReturn ==> p.mustFit && p.noReads)
    ensures Tight(world, t)
    decreases |steps|
  {
    if steps != [] {
      StepKeepsTight(world, p, s, steps[0]);
      RunKeepsTight(world, p, Next(world, s, steps[0]), steps[1..], t);
    }
  }

  const NO_LEASES := Shop([], map[], {})

  /** Everything that occupies stays within every limit, in every run of every world. */
  ghost predicate KeepsQuota(p: Policy) {
    forall world, steps, t, m | Initial(world, NO_LEASES) && Run(Protocol(world, p), NO_LEASES, steps, t) ::
      Total(t.leases, m, OCCUPYING, {}) <= Limit(world, m)
  }

  /**
   The occupying quota is kept if and only if no lease ever comes back, or one only does when it
   fits then and the reserver of its workspace, if there is one, has read nothing yet.
   */
  lemma OccupyingQuotaExactly(p: Policy)
    ensures KeepsQuota(p) <==> !p.mayReturn || (p.mustFit && p.noReads)
  {
    if p.mayReturn && !(p.mustFit && p.noReads) {
      var steps, t;
      if p.mustFit {
        steps, t := StaleReadLetsTwoOccupy(p);
      } else {
        steps, t := OccupyingQuotaFails(p);
      }
      assert Initial(OnePreview(), NO_LEASES) && Run(Protocol(OnePreview(), p), NO_LEASES, steps, t);
      assert Total(t.leases, WorkspaceCount("w", Preview), OCCUPYING, {})
             > Limit(OnePreview(), WorkspaceCount("w", Preview));
    } else {
      forall world, steps, t, m | Initial(world, NO_LEASES) && Run(Protocol(world, p), NO_LEASES, steps, t)
        ensures Total(t.leases, m, OCCUPYING, {}) <= Limit(world, m)
      {
        InitialInv(world, NO_LEASES);
        RunKeepsTight(world, p, NO_LEASES, steps, t);
        assert Held(t.(back := {}), m) <= Limit(world, m);
      }
    }
  }

  // ----- runs in which two previews occupy -----

  function OnePreview(): World {
    World(w => WorkspaceLimits(1, 1, 100.0, 100, 100), p => ProjectLimits(9, 9), p => "w")
  }

  function PreviewRequest(key: string): Request {
    Request(Reservation("w", "p", "b", Preview, key, "daytona", Profile(1.0, 1, 1), ""), "u", false, true, true, 0)
  }

  function ReserveSteps(q: Request): seq<Step> {
    var w := q.reservation.workspace;
    [Acquire(q), CheckKeyAndBranch(w), ReadProject(w), ReadWorkspace(w), InsertLease(w)]
  }

  /** A reservation made without interruption is one of the runs, with the same answer. */
  lemma ReservationIsARun(world: World, p: Policy, s: Shop, q: Request, scope: Scope)
    requires InScope(world, q) && q.reservation.workspace !in s.holders
    requires Accessible(q, scope) && scope.workspace.value.limits == world.workspaceLimits(q.reservation.workspace)
    requires scope.project.value.limits == world.projectLimits(q.reservation.project)
    requires FindKey(s.leases, q.reservation.key) == |s.leases|
    ensures var r := Uninterrupted(s.leases, q, scope);
            if r.outcome.Ok? then Run(Protocol(world, p), s, ReserveSteps(q), s.(leases := r.leases))
            else r.leases == s.leases
  {
    var r := Uninterrupted(s.leases, q, scope);
    if r.outcome.Ok? {
      var s2 := ReservationReads(world, p, s, q, scope);
      ReservationInserts(world, p, s, q, scope, s2);
    }
  }

  /** The holder with everything read. */
  function Informed(leases: seq<Lease>, q: Request): Holder {
    var r := q.reservation;
    Holder(q, true, Some(Total(leases, ProjectCount(r.project, r.purpose), OCCUPYING, {})),
           Some(UsageOf(leases, r.workspace)))
  }

  lemma ReservationReads(world: World, p: Policy, s: Shop, q: Request, scope: Scope) returns (t: Shop)
    requires InScope(world, q) && q.reservation.workspace !in s.holders
    requires FindKey(s.leases, q.reservation.key) == |s.leases| && Uninterrupted(s.leases, q, scope).outcome.Ok?
    ensures t == With(s, q.reservation.workspace, Informed(s.leases, q))
    ensures Run(Protocol(world, p), s, ReserveSteps(q)[..4], t)
  {
    var w, h := q.reservation.workspace, Informed(s.leases, q);
    ReservationCounts(world, p, s, q, scope);
    Learns(world, p, s, ReserveSteps(q)[..3], w, h.(usage := None), ReadWorkspace(w), h);
    t := With(s, w, h);
    assert ReserveSteps(q)[..3] + [ReadWorkspace(w)] == ReserveSteps(q)[..4];
  }

  lemma ReservationCounts(world: World, p: Policy, s: Shop, q: Request, scope: Scope)
    requires InScope(world, q) && q.reservation.workspace !in s.holders
    requires FindKey(s.leases, q.reservation.key) == |s.leases| && Uninterrupted(s.leases, q, scope).outcome.Ok?
    ensures Run(Protocol(world, p), s, ReserveSteps(q)[..3],
                With(s, q.reservation.workspace, Informed(s.leases, q).(usage := None)))
  {
    var w := q.reservation.workspace;
    var u := ReservationChecks(world, p, s, q, scope);
    var steps := [Acquire(q)] + [CheckKeyAndBranch(w)];
    Learns(world, p, s, steps, w, Holder(q, true, None, None), ReadProject(w), Informed(s.leases, q).(usage := None));
    assert steps + [ReadProject(w)] == ReserveSteps(q)[..3];
  }

  /** A step after which the holder of the lock knows more. */
  lemma Learns(world: World, p: Policy, s: Shop, before: seq<Step>, w: string, h: Holder, step: Step, later: Holder)
    requires Run(Protocol(world, p), s, before, With(s, w, h)) && Enabled(world, With(s, w, h), step)
    requires Next(world, With(s, w, h), step) == With(With(s, w, h), w, later)
    ensures Run(Protocol(world, p), s, before + [step], With(s, w, later))
  {
    assert s.holders[w := h][w := later] == s.holders[w := later];
    OneMore(Protocol(world, p), s, before, With(s, w, h), step, With(s, w, later));
  }

  lemma ReservationChecks(world: World, p: Policy, s: Shop, q: Request, scope: Scope) returns (t: Shop)
    requires InScope(world, q) && q.reservation.workspace !in s.holders
    requires FindKey(s.leases, q.reservation.key) == |s.leases| && Uninterrupted(s.leases, q, scope).outcome.Ok?
    ensures var w := q.reservation.workspace;
            && t == With(s, w, Holder(q, true, None, None))
            && Run(Protocol(world, p), s, [Acquire(q)] + [CheckKeyAndBranch(w)], t)
  {
    var w := q.reservation.workspace;
    var s1 := With(s, w, Holder(q, false, None, None));
    t := With(s, w, Holder(q, true, None, None));
    assert Next(world, s1, CheckKeyAndBranch(w)) == t;
    OneStep(Protocol(world, p), s, Acquire(q), s1);
    OneMore(Protocol(world, p), s, [Acquire(q)], s1, CheckKeyAndBranch(w), t);
  }

  lemma ReservationInserts(world: World, p: Policy, s: Shop, q: Request, scope: Scope, t: Shop)
    requires InScope(world, q) && q.reservation.workspace !in s.holders
    requires Accessible(q, scope) && scope.workspace.value.limits == world.workspaceLimits(q.reservation.workspace)
    requires scope.project.value.limits == world.projectLimits(q.reservation.project)
    requires FindKey(s.leases, q.reservation.key) == |s.leases| && Uninterrupted(s.leases, q, scope).outcome.Ok?
    requires t == With(s, q.reservation.workspace, Informed(s.leases, q))
    requires Run(Protocol(world, p), s, ReserveSteps(q)[..4], t)
    ensures Run(Protocol(world, p), s, ReserveSteps(q), s.(leases := Uninterrupted(s.leases, q, scope).leases))
  {
    var steps, w, u := ReserveSteps(q), q.reservation.workspace, s.(leases := Uninterrupted(s.leases, q, scope).leases);
    assert Enabled(world, t, steps[4]);
    assert t.holders - {w} == s.holders;
    assert Next(world, t, steps[4]) == u;
    OneMore(Protocol(world, p), s, steps[..4], t, steps[4], u);
    assert steps[..4] + [steps[4]] == steps;
  }

  lemma TotalOfOne(l: Lease, m: Meter)
    ensures Total([l], m, OCCUPYING, {}) == if l.state in OCCUPYING then Weight(m, l.reservation) else 0.0
  {
    var one := [l];
    assert one[..|one| - 1] == [];
    assert Total([], m, OCCUPYING, {}) == 0.0;
    assert Total(one, m, OCCUPYING, {}) == Total(one[..|one| - 1], m, OCCUPYING, {}) + Share(one, 0, m, OCCUPYING, {});
  }

  lemma TotalOfTwo(a: Lease, b: Lease, m: Meter)
    requires a.state in OCCUPYING && b.state in OCCUPYING
    ensures Total([a, b], m, OCCUPYING, {}) == Weight(m, a.reservation) + Weight(m, b.reservation)
  {
    var two := [a, b];
    assert two[..|two| - 1] == [a];
    TotalOfOne(a, m);
    assert Total(two, m, OCCUPYING, {}) == Total(two[..|two| - 1], m, OCCUPYING, {}) + Share(two, 1, m, OCCUPYING, {});
  }

  lemma NothingUsed(leases: seq<Lease>, w: string, p: string)
    requires leases == [] || (|leases| == 1 && leases[0].state !in OCCUPYING)
    ensures UsageOf(leases, w) == Usage(0.0, 0.0, 0.0, 0.0, 0.0)
    ensures Total(leases, ProjectCount(p, Preview), OCCUPYING, {}) == 0.0
  {
    if leases != [] {
      assert leases == [leases[0]];
      TotalOfOne(leases[0], WorkspaceCount(w, Build));
      TotalOfOne(leases[0], WorkspaceCount(w, Preview));
      TotalOfOne(leases[0], WorkspaceCpu(w));
      TotalOfOne(leases[0], WorkspaceMemory(w));
      TotalOfOne(leases[0], WorkspaceDisk(w));
      TotalOfOne(leases[0], ProjectCount(p, Preview));
    }
  }

  function PreviewLease(key: string, state: State): Lease {
    NewLease(PreviewRequest(key).reservation, 0).(state := state)
  }

  function PreviewScope(): Scope {
    var world := OnePreview();
    Scope(Some(WorkspaceDoc(true, world.workspaceLimits("w"))),
          Some(ProjectDoc(Some("w"), "u", world.projectLimits("p"))),
          Some(BranchDoc(true, "w", "p")), true)
  }

  lemma PreviewFits(leases: seq<Lease>, key: string)
    requires leases == [] || (|leases| == 1 && leases[0].state !in OCCUPYING && leases[0].reservation.key != key)
    ensures FindKey(leases, key) == |leases|
    ensures Uninterrupted(leases, PreviewRequest(key), PreviewScope())
            == Reserving(Ok(|leases|), leases + [PreviewLease(key, Reserved)])
  {
    NothingUsed(leases, "w", "p");
  }

  lemma PreviewIsReserved(p: Policy, leases: seq<Lease>, key: string)
    requires leases == [] || (|leases| == 1 && leases[0].state !in OCCUPYING && leases[0].reservation.key != key)
    ensures Run(Protocol(OnePreview(), p), Shop(leases, map[], {}), ReserveSteps(PreviewRequest(key)),
                Shop(leases + [PreviewLease(key, Reserved)], map[], {}))
  {
    PreviewFits(leases, key);
    ReservationIsARun(OnePreview(), p, Shop(leases, map[], {}), PreviewRequest(key), PreviewScope());
  }

  lemma PreviewFails(a: string)
    ensures var s, fail := Shop([PreviewLease(a, Reserved)], map[], {}), Write(0, Move([Reserved], Failed));
            Enabled(OnePreview(), s, fail) && Next(OnePreview(), s, fail) == Shop([PreviewLease(a, Failed)], map[], {})
  {
  }

  lemma PreviewComesBack(a: string, later: seq<Lease>, holders: map<string, Holder>)
    ensures var s, back := Shop([PreviewLease(a, Failed)] + later, holders, {}), Write(0, Move([Failed], Terminating));
            && Enabled(OnePreview(), s, back)
            && Next(OnePreview(), s, back) == Shop([PreviewLease(a, Terminating)] + later, holders, {0})
  {
  }

  lemma TwoPreviewsOccupy(t: Shop, a: string, b: string)
    requires t.leases == [PreviewLease(a, Terminating), PreviewLease(b, Reserved)]
    ensures Total(t.leases, WorkspaceCount("w", Preview), OCCUPYING, {}) == 2.0
    ensures Limit(OnePreview(), WorkspaceCount("w", Preview)) == 1.0
  {
    TotalOfTwo(t.leases[0], t.leases[1], WorkspaceCount("w", Preview));
  }

  /** A preview is reserved and fails. */
  lemma FirstPreview(p: Policy, a: string) returns (steps: seq<Step>)
    ensures Run(Protocol(OnePreview(), p), NO_LEASES, steps, Shop([PreviewLease(a, Failed)], map[], {}))
  {
    var reserved, failed := Shop([PreviewLease(a, Reserved)], map[], {}), Shop([PreviewLease(a, Failed)], map[], {});
    var fail := Write(0, Move([Reserved], Failed));
    PreviewIsReserved(p, [], a);
    assert [] + [PreviewLease(a, Reserved)] == [PreviewLease(a, Reserved)];
    PreviewFails(a);
    steps := ReserveSteps(PreviewRequest(a));
    OneMore(Protocol(OnePreview(), p), NO_LEASES, steps, reserved, fail, failed);
    steps := steps + [fail];
  }

  /** That leaves room for another one; then the first one is terminated. */
  lemma SecondPreview(p: Policy, a: string, b: string) returns (steps: seq<Step>)
    requires a != b && p.mayReturn && !p.mustFit
    ensures Run(Protocol(OnePreview(), p), Shop([PreviewLease(a, Failed)], map[], {}), steps,
                Shop([PreviewLease(a, Terminating), PreviewLease(b, Reserved)], map[], {0}))
  {
    var failed, later := PreviewLease(a, Failed), PreviewLease(b, Reserved);
    var back := Write(0, Move([Failed], Terminating));
    PreviewIsReserved(p, [failed], b);
    assert [failed] + [later] == [failed, later];
    assert [PreviewLease(a, Terminating)] + [later] == [PreviewLease(a, Terminating), later];
    PreviewComesBack(a, [later], map[]);
    steps := ReserveSteps(PreviewRequest(b));
    OneMore(Protocol(OnePreview(), p), Shop([failed], map[], {}), steps, Shop([failed, later], map[], {}), back,
            Shop([PreviewLease(a, Terminating), later], map[], {0}));
    steps := steps + [back];
  }

  /** Two previews occupy a workspace that allows one: a failed one leaves room, then terminates. */
  lemma OccupyingQuotaFails(p: Policy) returns (steps: seq<Step>, t: Shop)
    requires p.mayReturn && !p.mustFit
    ensures Initial(OnePreview(), NO_LEASES) && Run(Protocol(OnePreview(), p), NO_LEASES, steps, t)
    ensures Total(t.leases, WorkspaceCount("w", Preview), OCCUPYING, {})
            > Limit(OnePreview(), WorkspaceCount("w", Preview))
  {
    t := Shop([PreviewLease("1", Terminating), PreviewLease("2", Reserved)], map[], {0});
    var first := FirstPreview(p, "1");
    var second := SecondPreview(p, "1", "2");
    RunsJoin(Protocol(OnePreview(), p), NO_LEASES, first, Shop([PreviewLease("1", Failed)], map[], {}), second, t);
    steps := first + second;
    TwoPreviewsOccupy(t, "1", "2");
  }

  // ----- the same although the lease fits when it comes back -----

  /** The reserver of the second preview has read everything while the first one was failed. */
  function Reading(a: string, b: string, state: State, back: set<nat>): Shop {
    Shop([PreviewLease(a, state)], map["w" := Informed([PreviewLease(a, Failed)], PreviewRequest(b))], back)
  }

  lemma SecondReads(p: Policy, a: string, b: string) returns (steps: seq<Step>)
    requires a != b
    ensures Run(Protocol(OnePreview(), p), Shop([PreviewLease(a, Failed)], map[], {}), steps, Reading(a, b, Failed, {}))
  {
    var s := Shop([PreviewLease(a, Failed)], map[], {});
    PreviewFits(s.leases, b);
    var t := ReservationReads(OnePreview(), p, s, PreviewRequest(b), PreviewScope());
    assert t == Reading(a, b, Failed, {});
    steps := ReserveSteps(PreviewRequest(b))[..4];
  }

  /** The first one comes back, and fits: nothing else occupies. */
  lemma FirstFitsAgain(p: Policy, a: string, b: string)
    requires p.mayReturn && !p.noReads
    ensures var s, back := Reading(a, b, Failed, {}), Write(0, Move([Failed], Terminating));
            && Permitted(OnePreview(), p, s, back)
            && Next(OnePreview(), s, back) == Reading(a, b, Terminating, {0})
  {
    var s := Reading(a, b, Failed, {});
    NothingUsed(s.leases, "w", "p");
    assert [PreviewLease(a, Failed)] + [] == [PreviewLease(a, Failed)];
    assert [PreviewLease(a, Terminating)] + [] == [PreviewLease(a, Terminating)];
    PreviewComesBack(a, [], s.holders);
  }

  /** Then the second one is inserted, on what was read before. */
  lemma SecondInserts(a: string, b: string)
    requires a != b
    ensures var s := Reading(a, b, Terminating, {0});
            && Enabled(OnePreview(), s, InsertLease("w"))
            && Next(OnePreview(), s, InsertLease("w"))
               == Shop([PreviewLease(a, Terminating), PreviewLease(b, Reserved)], map[], {0})
  {
    var s := Reading(a, b, Terminating, {0});
    NothingUsed([PreviewLease(a, Failed)], "w", "p");
    assert FindKey(s.leases, b) == 1;
    assert s.leases + [PreviewLease(b, Reserved)] == [PreviewLease(a, Terminating), PreviewLease(b, Reserved)];
    assert s.holders - {"w"} == map[];
  }

  /** Two previews occupy although the first one fitted when it came back: the second had read before. */
  lemma StaleReadLetsTwoOccupy(p: Policy) returns (steps: seq<Step>, t: Shop)
    requires p.mayReturn && !p.noReads
    ensures Initial(OnePreview(), NO_LEASES) && Run(Protocol(OnePreview(), p), NO_LEASES, steps, t)
    ensures Total(t.leases, WorkspaceCount("w", Preview), OCCUPYING, {})
            > Limit(OnePreview(), WorkspaceCount("w", Preview))
  {
    var m, back := Protocol(OnePreview(), p), Write(0, Move([Failed], Terminating));
    var first := FirstPreview(p, "1");
    var second := SecondReads(p, "1", "2");
    t := Shop([PreviewLease("1", Terminating), PreviewLease("2", Reserved)], map[], {0});
    steps := first + second;
    RunsJoin(m, NO_LEASES, first, Shop([PreviewLease("1", Failed)], map[], {}), second, Reading("1", "2", Failed, {}));
    FirstFitsAgain(p, "1", "2");
    OneMore(m, NO_LEASES, steps, Reading("1", "2", Failed, {}), back, Reading("1", "2", Terminating, {0}));
    SecondInserts("1", "2");
    OneMore(m, NO_LEASES, steps + [back], Reading("1", "2", Terminating, {0}), InsertLease("w"), t);
    steps := steps + [back] + [InsertLease("w")];
    TwoPreviewsOccupy(t, "1", "2");
  }
}
