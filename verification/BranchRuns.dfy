/**
 Agent runs on one branch: optimistic head commits, rebase of waiting runs, cancel, retry, rollback,
 and executors that crash anywhere and are started again.
 */
module BranchRuns {
  import opened Results
  import Runs

  datatype Status =
    | WaitingForCapacity | Queued | Running | Planning | Generating | Validating | Repairing | Persisting
    | Completed | CompletedWithConflict | Failed | Cancelled

  function Allowed(from: Status): set<Status> {
    match from
    case WaitingForCapacity => {Queued, Cancelled}
    case Queued => {WaitingForCapacity, Running, Cancelled}
    case Running => {Planning, Validating, Cancelled, Failed}
    case Planning => {Generating, Cancelled, Failed}
    case Generating => {Validating, Cancelled, Failed}
    case Validating => {Repairing, Persisting, Failed, Cancelled}
    case Repairing => {Generating, Failed, Cancelled}
    case Persisting => {Completed, CompletedWithConflict, Failed}
    case _ => {}
  }

  predicate Terminal(s: Status) {
    s in {Completed, CompletedWithConflict, Failed, Cancelled}
  }

  const CANCELLABLE: set<Status> :=
    {WaitingForCapacity, Queued, Running, Planning, Generating, Validating, Repairing}

  /** A snapshot is known by the run it came from: the store keeps one per run. */
  datatype Snapshot = Of(run: nat) | Older(id: nat)

  datatype Branch = Branch(head: Option<Snapshot>, version: nat)

  datatype Run = Run(
    status: Status, baseVersion: nat, baseSnapshot: Option<Snapshot>,
    retryOf: Option<nat>, retryable: bool, result: Option<Snapshot>)

  // ----- the stored operations, as functions -----

  datatype HeadUpdate = HeadUpdate(advanced: bool, branch: Branch)

  function SetHead(b: Branch, expected: nat, snapshot: Snapshot): HeadUpdate {
    if b.version == expected then HeadUpdate(true, Branch(Some(snapshot), b.version + 1)) else HeadUpdate(false, b)
  }

  datatype CommitOutcome = Advanced | AlreadyAdvanced | Conflict

  datatype Committed = Committed(outcome: CommitOutcome, headVersion: nat)

  /** A commit that nothing interrupts. */
  function CommitOf(b: Branch, expected: nat, snapshot: Snapshot): Committed {
    if b.version == expected then Committed(Advanced, b.version + 1)
    else Committed(if b.head == Some(snapshot) then AlreadyAdvanced else Conflict, b.version)
  }

  datatype RunUpdate = RunUpdate(modified: bool, runs: seq<Run>)

  /** Writes `run` when the stored status is one of `from`. */
  function Replace(runs: seq<Run>, r: nat, from: set<Status>, run: Run): RunUpdate {
    if r < |runs| && runs[r].status in from then RunUpdate(true, runs[r := run]) else RunUpdate(false, runs)
  }

  function StatusUpdate(runs: seq<Run>, r: nat, from: set<Status>, to: Status): RunUpdate {
    if r < |runs| then Replace(runs, r, from, runs[r].(status := to)) else RunUpdate(false, runs)
  }

  /** The two failure updates exclude different statuses: a retry's also leaves a conflict alone. */
  function Failable(retry: bool): set<Status> {
    {WaitingForCapacity, Queued, Running, Planning, Generating, Validating, Repairing, Persisting}
    + if retry then {} else {CompletedWithConflict}
  }

  function FailureUpdate(runs: seq<Run>, r: nat, retryable: bool): RunUpdate {
    if r < |runs| then
      Replace(runs, r, Failable(runs[r].retryOf.Some?), runs[r].(status := Failed, retryable := retryable))
    else RunUpdate(false, runs)
  }

  /** Of the terminal statuses, only a first attempt's conflict is open to a late failure update. */
  lemma FailureUpdateOverwrites(runs: seq<Run>, r: nat, retryable: bool)
    requires r < |runs| && Terminal(runs[r].status)
    ensures FailureUpdate(runs, r, retryable).modified
            <==> runs[r].status == CompletedWithConflict && runs[r].retryOf == None
  {
  }

  datatype TransitionResult = Made | RunCancelled | StatusChanged

  /** What transitionRun() answers: it tells a run that was cancelled from one that changed otherwise. */
  function TransitionOf(runs: seq<Run>, r: nat, expected: Status, next: Status): TransitionResult {
    if StatusUpdate(runs, r, {expected}, next).modified then Made
    else if r < |runs| && runs[r].status == Cancelled then RunCancelled
    else StatusChanged
  }

  class Database {
    var branch: Branch
    var runs: seq<Run>

    constructor (branch: Branch)
      ensures this.branch == branch && runs == []
    {
      this.branch, runs := branch, [];
    }

    method SetBranchHead(expected: nat, snapshot: Snapshot) returns (advanced: bool)
      modifies this
      ensures HeadUpdate(advanced, branch) == SetHead(old(branch), expected, snapshot) && runs == old(runs)
    {
      advanced := branch.version == expected;
      if advanced {
        branch := Branch(Some(snapshot), branch.version + 1);
      }
    }

    /** The head moves at most by one, to this snapshot, and only from the expected version. */
    method CommitBranchHead(expected: nat, snapshot: Snapshot) returns (result: Committed)
      modifies this
      ensures result == CommitOf(old(branch), expected, snapshot) && runs == old(runs)
      ensures branch == SetHead(old(branch), expected, snapshot).branch
      ensures result.outcome != Conflict <==> branch.head == Some(snapshot)
      ensures result.headVersion == branch.version
    {
      var advanced := SetBranchHead(expected, snapshot);
      if advanced {
        return Committed(Advanced, branch.version);
      }
      if branch.head == Some(snapshot) {
        return Committed(AlreadyAdvanced, branch.version);
      }
      return Committed(Conflict, branch.version);
    }

    method UpdateStatus(r: nat, from: set<Status>, to: Status) returns (modified: bool)
      modifies this
      ensures RunUpdate(modified, runs) == StatusUpdate(old(runs), r, from, to) && branch == old(branch)
    {
      modified := r < |runs| && runs[r].status in from;
      if modified {
        runs := runs[r := runs[r].(status := to)];
      }
    }

    method TransitionRun(r: nat, expected: Status, next: Status) returns (result: TransitionResult)
      requires next in Allowed(expected)
      modifies this
      ensures RunUpdate(result == Made, runs) == StatusUpdate(old(runs), r, {expected}, next)
      ensures branch == old(branch) && result == TransitionOf(old(runs), r, expected, next)
      ensures result == RunCancelled <==> r < |runs| && old(runs)[r].status == Cancelled && expected != Cancelled
    {
      var modified := UpdateStatus(r, {expected}, next);
      if modified {
        return Made;
      }
      return if r < |runs| && runs[r].status == Cancelled then RunCancelled else StatusChanged;
    }

    method Cancel(r: nat) returns (modified: bool)
      modifies this
      ensures RunUpdate(modified, runs) == StatusUpdate(old(runs), r, CANCELLABLE, Cancelled)
      ensures branch == old(branch)
    {
      if r < |runs| && !Terminal(runs[r].status) && runs[r].status != Persisting {
        modified := UpdateStatus(r, CANCELLABLE, Cancelled);
      } else {
        modified := false;
      }
    }

    method FailRun(r: nat, retryable: bool) returns (modified: bool)
      modifies this
      ensures RunUpdate(modified, runs) == FailureUpdate(old(runs), r, retryable) && branch == old(branch)
    {
      modified := r < |runs| && runs[r].status in Failable(runs[r].retryOf.Some?);
      if modified {
        runs := runs[r := runs[r].(status := Failed, retryable := retryable)];
      }
    }
  }

  // ----- the system -----

  datatype Mover = Start | Rollback | ByRun(run: nat)

  /** One version of the branch: its head, and who moved the head there. */
  datatype Version = Version(head: Option<Snapshot>, mover: Mover)

  /** What a request handler read from the branch. */
  datatype Capture = Capture(version: nat, base: Option<Snapshot>)

  /** Where the one executor of a run stands; `base` is its own copy of the base version. */
  datatype Pc =
    | Taken(initial: Status)
    | Rebasing(version: nat, head: Option<Snapshot>)
    | Loading
    | Abandoning
    | Starting(base: nat)
    | Working(status: Status, base: nat)
    | Saving(base: nat)
    | Committing(base: nat, replay: bool)
    | Rereading(base: nat, replay: bool)
    | Finishing(outcome: Status, replay: bool)
    | Failing

  /** `history` records every version of the branch since version `first`. */
  datatype System = System(
    first: nat, branch: Branch, runs: seq<Run>, snapshots: set<nat>,
    executors: map<nat, Pc>, captures: map<nat, Capture>, history: seq<Version>)

  datatype Step =
    | ReadBranch(c: nat, keepBase: bool)
    | CreateRun(c: nat)
    | CreateRetry(source: nat)
    | RollBack(c: nat, snapshot: Snapshot)
    | CancelRun(r: nat)
    | Take(r: nat)
    | Wait(r: nat)
    | Acquire(r: nat)
    | Rebase(r: nat)
    | Load(r: nat)
    | Abandon(r: nat)
    | Begin(r: nat)
    | Move(r: nat, to: Status)
    | Persist(r: nat)
    | Save(r: nat)
    | Commit(r: nat)
    | Reread(r: nat)
    | Finish(r: nat)
    | Throw(r: nat)
    | Fail(r: nat, retryable: bool)
    | Crash(r: nat)

  predicate Stored(s: System, snapshot: Snapshot) {
    snapshot.Of? ==> snapshot.run in s.snapshots
  }

  /** Inside the try block whose handler records the failure; a replayed commit is outside it. */
  predicate CatchesErrors(pc: Pc) {
    match pc
    case Starting(_) => true
    case Working(_, _) => true
    case Saving(_) => true
    case Committing(_, replay) => !replay
    case Rereading(_, replay) => !replay
    case Finishing(_, replay) => !replay
    case _ => false
  }

  predicate Enabled(s: System, step: Step) {
    match step
    case ReadBranch(c, k) => true
    case CreateRun(c) => c in s.captures
    case CreateRetry(source) =>
      && source < |s.runs| && s.runs[source].status == Failed && s.runs[source].retryable
      && forall r | 0 <= r < |s.runs| && s.runs[r].retryOf == Some(source) :: Terminal(s.runs[r].status)
    case RollBack(c, snapshot) => c in s.captures && Stored(s, snapshot)
    case CancelRun(r) => r < |s.runs|
    case Take(r) => r < |s.runs| && r !in s.executors && !Terminal(s.runs[r].status)
    case Wait(r) => r in s.executors && s.executors[r].Taken?
    case Acquire(r) => r in s.executors && s.executors[r].Taken? && r < |s.runs|
    case Rebase(r) => r in s.executors && s.executors[r].Rebasing? && r < |s.runs|
    case Load(r) => r in s.executors && s.executors[r].Loading? && r < |s.runs|
    case Abandon(r) => r in s.executors && s.executors[r].Abandoning?
    case Begin(r) => r in s.executors && s.executors[r].Starting?
    case Move(r, to) =>
      && r in s.executors && s.executors[r].Working?
      && to in {Planning, Generating, Validating, Repairing} && to in Allowed(s.executors[r].status)
    case Persist(r) => r in s.executors && s.executors[r].Working? && s.executors[r].status == Validating
    case Save(r) => r in s.executors && s.executors[r].Saving?
    case Commit(r) => r in s.executors && s.executors[r].Committing?
    case Reread(r) => r in s.executors && s.executors[r].Rereading?
    case Finish(r) => r in s.executors && s.executors[r].Finishing? && r < |s.runs|
    case Throw(r) => r in s.executors && CatchesErrors(s.executors[r])
    case Fail(r, t) => r in s.executors && s.executors[r].Failing?
    case Crash(r) => r in s.executors
  }

  function At(s: System, r: nat, pc: Pc): System {
    s.(executors := s.executors[r := pc])
  }

  function NewRun(version: nat, base: Option<Snapshot>, retryOf: Option<nat>): Run {
    Run(Queued, version, base, retryOf, false, None)
  }

  /** A waiting first attempt is based anew on the branch as its executor read it. */
  function RebaseOf(s: System, r: nat): RunUpdate
    requires r < |s.runs| && r in s.executors && s.executors[r].Rebasing?
  {
    var pc := s.executors[r];
    Replace(s.runs, r, {WaitingForCapacity},
            s.runs[r].(status := Queued, baseVersion := pc.version, baseSnapshot := pc.head))
  }

  /** The last write of a run that was committed: its verdict and its result. */
  function FinishOf(s: System, r: nat): RunUpdate
    requires r < |s.runs| && r in s.executors && s.executors[r].Finishing?
  {
    Replace(s.runs, r, {Persisting}, s.runs[r].(status := s.executors[r].outcome, result := Some(Of(r))))
  }

  /** The stored runs after a step of a request handler, or one that takes a run up or gives it back. */
  function RunsEarly(s: System, step: Step): seq<Run>
    requires Enabled(s, step)
  {
    match step
    case CreateRun(c) => s.runs + [NewRun(s.captures[c].version, s.captures[c].base, None)]
    case CreateRetry(source) => s.runs + [NewRun(s.runs[source].baseVersion, s.runs[source].baseSnapshot, Some(source))]
    case CancelRun(r) => StatusUpdate(s.runs, r, CANCELLABLE, Cancelled).runs
    case Wait(r) => StatusUpdate(s.runs, r, {Queued, WaitingForCapacity}, WaitingForCapacity).runs
    case Acquire(r) =>
      if s.executors[r].initial == WaitingForCapacity && s.runs[r].retryOf.Some?
      then StatusUpdate(s.runs, r, {WaitingForCapacity}, Queued).runs else s.runs
    case Rebase(r) => RebaseOf(s, r).runs
    case _ => s.runs
  }

  /** The stored runs after a step that carries a run out. */
  function RunsLate(s: System, step: Step): seq<Run>
    requires Enabled(s, step)
  {
    match step
    case Abandon(r) => StatusUpdate(s.runs, r, {Persisting}, Failed).runs
    case Begin(r) => StatusUpdate(s.runs, r, {Queued}, Running).runs
    case Move(r, to) => StatusUpdate(s.runs, r, {s.executors[r].status}, to).runs
    case Persist(r) => StatusUpdate(s.runs, r, {Validating}, Persisting).runs
    case Finish(r) => FinishOf(s, r).runs
    case Fail(r, retryable) => FailureUpdate(s.runs, r, retryable).runs
    case _ => s.runs
  }

  predicate IsLate(step: Step) {
    step.Abandon? || step.Begin? || step.Move? || step.Persist? || step.Finish? || step.Fail?
  }

  function RunsAfter(s: System, step: Step): seq<Run>
    requires Enabled(s, step)
  {
    if IsLate(step) then RunsLate(s, step) else RunsEarly(s, step)
  }

  /** An executor goes on at `pc` when its transition was made, stops when cancelled, fails otherwise. */
  function Went(result: TransitionResult, pc: Pc): Option<Pc> {
    match result
    case Made => Some(pc)
    case RunCancelled => None
    case StatusChanged => Some(Failing)
  }

  function WentAfterLoad(s: System, r: nat): Option<Pc>
    requires r < |s.runs|
  {
    var run := s.runs[r];
    if run.retryOf.Some? then
      if run.status == Queued then Some(Starting(run.baseVersion)) else None
    else
      match run.status
      case Persisting => Some(if r in s.snapshots then Committing(run.baseVersion, true) else Abandoning)
      case Completed => None
      case CompletedWithConflict => None
      case _ => Some(Starting(run.baseVersion))
  }

  /** Where a step that takes its run up leaves the executor; nowhere when it is done. */
  function WentEarly(s: System, step: Step): Option<Pc>
    requires Enabled(s, step)
  {
    match step
    case Take(r) => Some(Taken(s.runs[r].status))
    case Acquire(r) =>
      Some(if s.executors[r].initial != WaitingForCapacity || s.runs[r].retryOf.Some? then Loading
           else Rebasing(s.branch.version, s.branch.head))
    case Rebase(r) => if RebaseOf(s, r).modified then Some(Loading) else None
    case Load(r) => WentAfterLoad(s, r)
    case Begin(r) => Went(TransitionOf(s.runs, r, Queued, Running), Working(Running, s.executors[r].base))
    case Move(r, to) => Went(TransitionOf(s.runs, r, s.executors[r].status, to), Working(to, s.executors[r].base))
    case Persist(r) => Went(TransitionOf(s.runs, r, Validating, Persisting), Saving(s.executors[r].base))
    case _ => None
  }

  /** Where a step that commits or fails its run leaves the executor. */
  function WentLate(s: System, step: Step): Option<Pc>
    requires Enabled(s, step)
  {
    match step
    case Save(r) => Some(Committing(s.executors[r].base, false))
    case Commit(r) =>
      var pc := s.executors[r];
      Some(if s.branch.version == pc.base then Finishing(Completed, pc.replay) else Rereading(pc.base, pc.replay))
    case Reread(r) =>
      var outcome := if s.branch.head == Some(Of(r)) then Completed else CompletedWithConflict;
      Some(Finishing(outcome, s.executors[r].replay))
    case Finish(r) => if FinishOf(s, r).modified || s.executors[r].replay then None else Some(Failing)
    case Throw(r) => Some(Failing)
    case _ => None
  }

  predicate IsCommitting(step: Step) {
    step.Save? || step.Commit? || step.Reread? || step.Finish? || step.Throw? || step.Fail? || step.Crash?
  }

  function WentTo(s: System, step: Step): Option<Pc>
    requires Enabled(s, step)
  {
    if IsCommitting(step) then WentLate(s, step) else WentEarly(s, step)
  }

  /** The run whose executor a step is of; request handlers have none. */
  function Executor(step: Step): Option<nat> {
    match step
    case ReadBranch(_, _) => None
    case CreateRun(_) => None
    case CreateRetry(_) => None
    case RollBack(_, _) => None
    case CancelRun(_) => None
    case _ => Some(step.r)
  }

  function MoveTo(executors: map<nat, Pc>, r: nat, pc: Option<Pc>): map<nat, Pc> {
    match pc
    case None => executors - {r}
    case Some(x) => executors[r := x]
  }

  /** The head that a step asks for: the expected version, the snapshot, and who asks. */
  datatype HeadRequest = HeadRequest(expected: nat, snapshot: Snapshot, mover: Mover)

  function HeadAsked(s: System, step: Step): Option<HeadRequest>
    requires Enabled(s, step)
  {
    match step
    case RollBack(c, snapshot) => Some(HeadRequest(s.captures[c].version, snapshot, Rollback))
    case Commit(r) => Some(HeadRequest(s.executors[r].base, Of(r), ByRun(r)))
    case _ => None
  }

  /** The compare-and-set on the head, with its entry in the history. */
  function Advance(s: System, asked: Option<HeadRequest>): System {
    match asked
    case None => s
    case Some(q) =>
      var u := SetHead(s.branch, q.expected, q.snapshot);
      if u.advanced then s.(branch := u.branch, history := s.history + [Version(Some(q.snapshot), q.mover)]) else s
  }

  function Next(s: System, step: Step): System
    requires Enabled(s, step)
  {
    Advance(s, HeadAsked(s, step)).(
      runs := RunsAfter(s, step),
      snapshots := if step.Save? then s.snapshots + {step.r} else s.snapshots,
      captures := if step.ReadBranch?
                  then s.captures[step.c := Capture(s.branch.version, if step.keepBase then s.branch.head else None)]
                  else s.captures,
      executors := if Executor(step).Some? then MoveTo(s.executors, step.r, WentTo(s, step)) else s.executors)
  }

  // ----- the invariant -----

  /** The head at a version. */
  function HeadAt(s: System, v: nat): Option<Snapshot>
    requires s.first <= v < s.first + |s.history|
  {
    s.history[v - s.first].head
  }

  /** A version that was, with its head or nothing. */
  ghost predicate Based(s: System, v: nat, base: Option<Snapshot>) {
    s.first <= v < s.first + |s.history| && (base == None || base == HeadAt(s, v))
  }

  ghost predicate InHistory(s: System, snapshot: Snapshot) {
    exists k | 0 <= k < |s.history| :: s.history[k].head == Some(snapshot)
  }

  const SAVED: set<Status> := {Persisting, Completed, CompletedWithConflict, Failed}

  ghost predicate RunValid(s: System, r: nat)
    requires r < |s.runs|
  {
    var run := s.runs[r];
    && Based(s, run.baseVersion, run.baseSnapshot)
    && (r in s.snapshots ==> run.status in SAVED)
    && (run.status == Completed ==> run.result == Some(Of(r)) && InHistory(s, Of(r)))
    && (run.status == CompletedWithConflict ==> run.result == Some(Of(r)) && r in s.snapshots)
  }

  ghost predicate PcValid(s: System, r: nat, pc: Pc) {
    && r < |s.runs|
    && var run := s.runs[r];
       match pc
       case Taken(_) => true
       case Loading => true
       case Rebasing(v, head) => Based(s, v, head)
       case Abandoning => run.status == Persisting
       case Starting(base) => base == run.baseVersion && run.status !in SAVED - {Failed}
       case Working(status, base) => base == run.baseVersion && run.status in {status, Cancelled} && status !in SAVED
       case Saving(base) => base == run.baseVersion && run.status == Persisting
       case Committing(base, _) => base == run.baseVersion && run.status == Persisting && r in s.snapshots
       case Rereading(base, _) => base == run.baseVersion && run.status == Persisting && r in s.snapshots
       case Finishing(outcome, _) =>
         && run.status == Persisting && r in s.snapshots && outcome in {Completed, CompletedWithConflict}
         && (outcome == Completed ==> InHistory(s, Of(r)))
       case Failing => run.status != CompletedWithConflict
  }

  /** Entry `k` was made from the version before it, by a run based on just that version. */
  ghost predicate EntryValid(s: System, k: nat)
    requires k < |s.history|
  {
    var e := s.history[k];
    && (e.head.Some? ==> Stored(s, e.head.value))
    && (e.mover.ByRun? ==>
          && k > 0 && e.mover.run < |s.runs| && e.mover.run in s.snapshots && e.head == Some(Of(e.mover.run))
          && var run := s.runs[e.mover.run];
             run.baseVersion == s.first + k - 1
                 && (run.baseSnapshot == None || run.baseSnapshot == s.history[k - 1].head))
  }

  ghost predicate Inv(s: System) {
    && s.history != [] && s.branch.version == s.first + |s.history| - 1
    && s.branch.head == s.history[|s.history| - 1].head
    && (forall r | r in s.snapshots :: r < |s.runs|)
    && (forall r | 0 <= r < |s.runs| :: RunValid(s, r))
    && (forall r | r in s.executors :: PcValid(s, r, s.executors[r]))
    && (forall c | c in s.captures :: Based(s, s.captures[c].version, s.captures[c].base))
    && (forall k | 0 <= k < |s.history| :: EntryValid(s, k))
  }

  // ----- what one step may change -----

  /** How a run's stored status may change. */
  predicate StatusMoves(a: Status, b: Status) {
    a == b || b in Allowed(a) || (b == Failed && !Terminal(a))
  }

  /** One step, seen from every run: history and snapshots grow, bases only change while waiting. */
  ghost predicate Grows(s: System, t: System) {
    && t.first == s.first && s.history <= t.history && s.snapshots <= t.snapshots && |s.runs| <= |t.runs|
    && (forall r | 0 <= r < |s.runs| :: RunMoves(s.runs[r], t.runs[r]))
  }

  /** Only the run a step is about changes, or gets a snapshot. */
  function Subject(step: Step): nat {
    match step
    case CancelRun(r) => r
    case Take(r) => r
    case Wait(r) => r
    case Acquire(r) => r
    case Rebase(r) => r
    case Load(r) => r
    case Abandon(r) => r
    case Begin(r) => r
    case Move(r, _) => r
    case Persist(r) => r
    case Save(r) => r
    case Commit(r) => r
    case Reread(r) => r
    case Finish(r) => r
    case Throw(r) => r
    case Fail(r, _) => r
    case Crash(r) => r
    case _ => 0
  }

  /** Steps of request handlers, which are about no run that exists. */
  predicate IsRequest(step: Step) {
    step.ReadBranch? || step.CreateRun? || step.CreateRetry? || step.RollBack?
  }

  /** Run `r`, its snapshot and its executor are the same in both states. */
  ghost predicate Untouched(s: System, t: System, r: nat)
    requires r < |s.runs|
  {
    && r < |t.runs| && t.runs[r] == s.runs[r] && (r in t.snapshots <==> r in s.snapshots)
    && (r in t.executors <==> r in s.executors) && (r in s.executors ==> t.executors[r] == s.executors[r])
  }

  lemma OtherRunsStay(s: System, step: Step, r: nat)
    requires Enabled(s, step) && r < |s.runs| && (r != Subject(step) || IsRequest(step))
    ensures r < |RunsAfter(s, step)| && RunsAfter(s, step)[r] == s.runs[r]
  {
    if IsLate(step) {
      OtherLateRunsStay(s, step, r);
    } else {
      OtherEarlyRunsStay(s, step, r);
    }
  }

  lemma OtherLateRunsStay(s: System, step: Step, r: nat)
    requires Enabled(s, step) && IsLate(step) && r < |s.runs| && r != Subject(step)
    ensures r < |RunsLate(s, step)| && RunsLate(s, step)[r] == s.runs[r]
  {
  }

  lemma OtherEarlyRunsStay(s: System, step: Step, r: nat)
    requires Enabled(s, step) && r < |s.runs| && (r != Subject(step) || IsRequest(step))
    ensures r < |RunsEarly(s, step)| && RunsEarly(s, step)[r] == s.runs[r]
  {
  }

  lemma ExecutorIsSubject(step: Step)
    ensures Executor(step).Some? ==> Executor(step).value == Subject(step) && !IsRequest(step)
  {
  }

  lemma OthersStay(s: System, step: Step, r: nat)
    requires Enabled(s, step) && r < |s.runs| && (r != Subject(step) || IsRequest(step))
    ensures Untouched(s, Next(s, step), r)
  {
    OtherRunsStay(s, step, r);
    ExecutorIsSubject(step);
  }

  /** How one step may change one run. */
  predicate RunMoves(a: Run, b: Run) {
    && StatusMoves(a.status, b.status) && b.retryOf == a.retryOf
    && (a.status != WaitingForCapacity ==> b.baseVersion == a.baseVersion && b.baseSnapshot == a.baseSnapshot)
  }

  lemma LateMoves(s: System, step: Step)
    requires Enabled(s, step) && IsLate(step) && Subject(step) < |s.runs|
    requires Subject(step) in s.executors ==> PcValid(s, Subject(step), s.executors[Subject(step)])
    ensures |s.runs| <= |RunsLate(s, step)| && RunMoves(s.runs[Subject(step)], RunsLate(s, step)[Subject(step)])
  {
  }

  lemma EarlyMoves(s: System, step: Step)
    requires Enabled(s, step) && Subject(step) < |s.runs|
    ensures |s.runs| <= |RunsEarly(s, step)| && RunMoves(s.runs[Subject(step)], RunsEarly(s, step)[Subject(step)])
  {
  }

  lemma SubjectMoves(s: System, step: Step)
    requires Enabled(s, step) && Subject(step) < |s.runs|
    requires Subject(step) in s.executors ==> PcValid(s, Subject(step), s.executors[Subject(step)])
    ensures |s.runs| <= |Next(s, step).runs| && RunMoves(s.runs[Subject(step)], Next(s, step).runs[Subject(step)])
  {
    if IsLate(step) {
      LateMoves(s, step);
    } else {
      EarlyMoves(s, step);
    }
  }

  lemma RunsGrow(s: System, step: Step)
    requires Enabled(s, step)
    ensures |s.runs| <= |RunsAfter(s, step)| <= |s.runs| + 1
    ensures |RunsAfter(s, step)| > |s.runs| ==> step.CreateRun? || step.CreateRetry?
  {
  }

  /** The head moves by a step's request only, by one, or not at all. */
  lemma StepKeepsHistory(s: System, step: Step)
    requires Enabled(s, step)
    ensures var t := Next(s, step);
            && t.first == s.first && s.history <= t.history && s.snapshots <= t.snapshots && |s.runs| <= |t.runs|
            && |t.history| <= |s.history| + 1 && |t.runs| <= |s.runs| + 1
  {
    RunsGrow(s, step);
  }

  lemma StepGrows(s: System, step: Step)
    requires Inv(s) && Enabled(s, step)
    ensures Grows(s, Next(s, step))
  {
    var t := Next(s, step);
    StepKeepsHistory(s, step);
    forall r | 0 <= r < |s.runs| ensures RunMoves(s.runs[r], t.runs[r]) {
      if r == Subject(step) {
        assert r in s.executors ==> PcValid(s, r, s.executors[r]);
        SubjectMoves(s, step);
      } else {
        OthersStay(s, step, r);
      }
    }
  }

  lemma BasedStays(s: System, t: System, v: nat, base: Option<Snapshot>)
    requires t.first == s.first && s.history <= t.history && Based(s, v, base)
    ensures Based(t, v, base)
  {
  }

  lemma HistoryStays(s: System, t: System, snapshot: Snapshot)
    requires s.history <= t.history && InHistory(s, snapshot)
    ensures InHistory(t, snapshot)
  {
    var k :| 0 <= k < |s.history| && s.history[k].head == Some(snapshot);
    assert t.history[k].head == Some(snapshot);
  }

  lemma RunStaysValid(s: System, t: System, r: nat)
    requires Grows(s, t) && r < |s.runs| && RunValid(s, r)
    requires t.runs[r] == s.runs[r] && (r in t.snapshots <==> r in s.snapshots)
    ensures RunValid(t, r)
  {
    BasedStays(s, t, s.runs[r].baseVersion, s.runs[r].baseSnapshot);
    if s.runs[r].status == Completed {
      HistoryStays(s, t, Of(r));
    }
  }

  lemma PcStaysValid(s: System, t: System, r: nat, pc: Pc)
    requires Grows(s, t) && PcValid(s, r, pc)
    requires t.runs[r] == s.runs[r] && (r in t.snapshots <==> r in s.snapshots)
    ensures PcValid(t, r, pc)
  {
    match pc
    case Rebasing(v, head) => BasedStays(s, t, v, head);
    case Finishing(outcome, _) =>
      if outcome == Completed {
        HistoryStays(s, t, Of(r));
      }
    case _ =>
  }

  lemma AdvanceKeepsVersions(s: System, asked: Option<HeadRequest>)
    requires s.history != [] && s.branch.version == s.first + |s.history| - 1
    requires s.branch.head == s.history[|s.history| - 1].head
    ensures var t := Advance(s, asked);
            && t.first == s.first && t.history != [] && t.branch.version == t.first + |t.history| - 1
            && t.branch.head == t.history[|t.history| - 1].head
  {
  }

  lemma StepKeepsVersions(s: System, step: Step)
    requires Inv(s) && Enabled(s, step)
    ensures var t := Next(s, step);
            && t.history != [] && t.branch.version == t.first + |t.history| - 1
            && t.branch.head == t.history[|t.history| - 1].head
            && (forall r | r in t.snapshots :: r < |t.runs|)
  {
    AdvanceKeepsVersions(s, HeadAsked(s, step));
    RunsGrow(s, step);
    if step.Save? {
      assert PcValid(s, step.r, s.executors[step.r]);
    }
  }

  /** What a stored run must be, seen apart from the rest: `saved` if it has a snapshot, `led` if that was a head. */
  predicate RunFits(run: Run, r: nat, saved: bool, led: bool) {
    && (saved ==> run.status in SAVED)
    && (run.status == Completed ==> run.result == Some(Of(r)) && led)
    && (run.status == CompletedWithConflict ==> run.result == Some(Of(r)) && saved)
  }

  lemma ValidFits(s: System, r: nat)
    requires r < |s.runs|
    ensures RunValid(s, r) <==>
              Based(s, s.runs[r].baseVersion, s.runs[r].baseSnapshot)
              && RunFits(s.runs[r], r, r in s.snapshots, InHistory(s, Of(r)))
  {
  }

  lemma LateFits(s: System, step: Step, led: bool)
    requires Enabled(s, step) && IsLate(step)
    requires var r := Subject(step);
             && r < |s.runs| && r in s.executors && PcValid(s, r, s.executors[r])
             && RunFits(s.runs[r], r, r in s.snapshots, InHistory(s, Of(r))) && (InHistory(s, Of(r)) ==> led)
    ensures var r := Subject(step);
            r < |RunsLate(s, step)| && RunFits(RunsLate(s, step)[r], r, r in s.snapshots, led)
  {
  }

  lemma EarlyFits(s: System, step: Step, saved: bool, led: bool)
    requires Enabled(s, step) && !IsLate(step)
    requires var r := Subject(step);
             && r < |s.runs| && RunFits(s.runs[r], r, r in s.snapshots, InHistory(s, Of(r)))
             && (InHistory(s, Of(r)) ==> led) && (r in s.snapshots ==> saved)
             && (saved && r !in s.snapshots ==> s.runs[r].status == Persisting && step.Save?)
    ensures var r := Subject(step);
            r < |RunsEarly(s, step)| && RunFits(RunsEarly(s, step)[r], r, saved, led)
  {
  }

  /** A run's base is left as it is, or replaced by the branch its executor has read. */
  lemma SubjectIsBased(s: System, step: Step)
    requires Enabled(s, step) && Subject(step) < |s.runs|
    requires Subject(step) in s.executors ==> PcValid(s, Subject(step), s.executors[Subject(step)])
    requires var run := s.runs[Subject(step)]; Based(s, run.baseVersion, run.baseSnapshot)
    ensures |s.runs| <= |RunsAfter(s, step)|
    ensures var run := RunsAfter(s, step)[Subject(step)]; Based(s, run.baseVersion, run.baseSnapshot)
  {
    if !step.Rebase? {
      OnlyRebaseChangesBase(s, step);
    }
  }

  lemma OnlyRebaseChangesBase(s: System, step: Step)
    requires Enabled(s, step) && Subject(step) < |s.runs| && !step.Rebase?
    ensures |s.runs| <= |RunsAfter(s, step)|
    ensures var a, b := s.runs[Subject(step)], RunsAfter(s, step)[Subject(step)];
            b.baseVersion == a.baseVersion && b.baseSnapshot == a.baseSnapshot
  {
  }

  lemma SnapshotsAfter(s: System, step: Step, r: nat)
    requires Enabled(s, step)
    ensures r in Next(s, step).snapshots <==> r in s.snapshots || (step.Save? && Subject(step) == r)
  {
  }

  lemma SubjectStaysValid(s: System, step: Step)
    requires Enabled(s, step) && Subject(step) < |s.runs| && RunValid(s, Subject(step)) && !IsRequest(step)
    requires Subject(step) in s.executors ==> PcValid(s, Subject(step), s.executors[Subject(step)])
    ensures |s.runs| <= |Next(s, step).runs| && RunValid(Next(s, step), Subject(step))
  {
    var r, t := Subject(step), Next(s, step);
    StepKeepsHistory(s, step);
    ValidFits(s, r);
    SubjectIsBased(s, step);
    BasedStays(s, t, t.runs[r].baseVersion, t.runs[r].baseSnapshot);
    if InHistory(s, Of(r)) {
      HistoryStays(s, t, Of(r));
    }
    SnapshotsAfter(s, step, r);
    if IsLate(step) {
      LateFits(s, step, InHistory(t, Of(r)));
    } else {
      EarlyFits(s, step, r in t.snapshots, InHistory(t, Of(r)));
    }
    ValidFits(t, r);
  }

  lemma StepKeepsRuns(s: System, step: Step)
    requires Inv(s) && Enabled(s, step)
    ensures var t := Next(s, step); forall r | 0 <= r < |t.runs| :: RunValid(t, r)
  {
    var t := Next(s, step);
    forall r | 0 <= r < |t.runs| ensures RunValid(t, r) {
      if r < |s.runs| {
        OldRunStaysValid(s, step, r);
      } else {
        NewRunIsValid(s, step);
      }
    }
  }

  lemma OldRunStaysValid(s: System, step: Step, r: nat)
    requires Inv(s) && Enabled(s, step) && r < |s.runs|
    ensures r < |Next(s, step).runs| && RunValid(Next(s, step), r)
  {
    StepGrows(s, step);
    assert RunValid(s, r);
    if r == Subject(step) && !IsRequest(step) {
      assert r in s.executors ==> PcValid(s, r, s.executors[r]);
      SubjectStaysValid(s, step);
    } else {
      OthersStay(s, step, r);
      RunStaysValid(s, Next(s, step), r);
    }
  }

  lemma NewRunIsBased(s: System, step: Step)
    requires Inv(s) && Enabled(s, step) && |RunsAfter(s, step)| > |s.runs|
    ensures |RunsAfter(s, step)| == |s.runs| + 1
    ensures var run := RunsAfter(s, step)[|s.runs|];
            Based(s, run.baseVersion, run.baseSnapshot) && run.status == Queued
                && (step.CreateRun? || step.CreateRetry?)
  {
    RunsGrow(s, step);
    if step.CreateRun? {
      assert Based(s, s.captures[step.c].version, s.captures[step.c].base);
    } else {
      assert RunValid(s, step.source);
    }
  }

  lemma NewRunIsValid(s: System, step: Step)
    requires Inv(s) && Enabled(s, step) && |Next(s, step).runs| > |s.runs|
    ensures |Next(s, step).runs| == |s.runs| + 1 && RunValid(Next(s, step), |s.runs|)
  {
    var t := Next(s, step);
    NewRunIsBased(s, step);
    StepKeepsHistory(s, step);
    BasedStays(s, t, t.runs[|s.runs|].baseVersion, t.runs[|s.runs|].baseSnapshot);
    assert |s.runs| !in s.snapshots;
  }

  lemma LoadIsValid(s: System, r: nat, t: System)
    requires r < |s.runs| && RunValid(s, r) && WentAfterLoad(s, r).Some?
    requires t.first == s.first && t.history == s.history && t.snapshots == s.snapshots && t.runs == s.runs
    ensures PcValid(t, r, WentAfterLoad(s, r).value)
  {
  }

  lemma WentEarlyIsValid(s: System, step: Step, t: System)
    requires Enabled(s, step) && Executor(step).Some? && !IsCommitting(step) && WentEarly(s, step).Some?
    requires step.r < |s.runs| && (step.r in s.executors ==> PcValid(s, step.r, s.executors[step.r]))
    requires s.history != [] && s.branch.version == s.first + |s.history| - 1
    requires s.branch.head == s.history[|s.history| - 1].head && RunValid(s, step.r)
    requires t.first == s.first && t.history == s.history && t.snapshots == s.snapshots && t.runs == RunsAfter(s, step)
    ensures PcValid(t, step.r, WentEarly(s, step).value)
  {
    if step.Load? {
      LoadIsValid(s, step.r, t);
    } else if step.Begin? || step.Move? || step.Persist? {
      TransitionIsValid(s, step, t);
    }
  }

  lemma TransitionIsValid(s: System, step: Step, t: System)
    requires Enabled(s, step) && (step.Begin? || step.Move? || step.Persist?) && WentEarly(s, step).Some?
    requires PcValid(s, step.r, s.executors[step.r])
    requires t.first == s.first && t.history == s.history && t.snapshots == s.snapshots && t.runs == RunsAfter(s, step)
    ensures PcValid(t, step.r, WentEarly(s, step).value)
  {
  }

  lemma WentLateIsValid(s: System, step: Step, t: System)
    requires Enabled(s, step) && IsCommitting(step) && WentLate(s, step).Some?
             && PcValid(s, step.r, s.executors[step.r])
    requires t.first == s.first && s.history <= t.history && t.runs == RunsAfter(s, step)
    requires forall r :: r in t.snapshots <==> r in s.snapshots || (step.Save? && step.r == r)
    requires step.Commit? && s.branch.version == s.executors[step.r].base ==> InHistory(t, Of(step.r))
    requires step.Reread? && s.branch.head == Some(Of(step.r)) ==> InHistory(t, Of(step.r))
    ensures PcValid(t, step.r, WentLate(s, step).value)
  {
  }

  lemma HeadIsInHistory(s: System, snapshot: Snapshot)
    requires s.history != [] && s.branch.head == s.history[|s.history| - 1].head && s.branch.head == Some(snapshot)
    ensures InHistory(s, snapshot)
  {
  }

  lemma AdvancedIsInHistory(s: System, q: HeadRequest)
    requires s.branch.version == q.expected
    ensures InHistory(Advance(s, Some(q)), q.snapshot)
  {
    assert Advance(s, Some(q)).history[|s.history|].head == Some(q.snapshot);
  }

  /** The executor after a step of its own. */
  lemma OwnStepStaysValid(s: System, step: Step)
    requires Inv(s) && Enabled(s, step) && Executor(step).Some? && WentTo(s, step).Some?
    requires step.r < |s.runs| && (step.r in s.executors ==> PcValid(s, step.r, s.executors[step.r]))
    ensures PcValid(Next(s, step), step.r, WentTo(s, step).value)
  {
    var t := Next(s, step);
    StepKeepsHistory(s, step);
    if IsCommitting(step) {
      if step.Commit? && s.branch.version == s.executors[step.r].base {
        AdvancedIsInHistory(s, HeadAsked(s, step).value);
      }
      if step.Reread? && s.branch.head == Some(Of(step.r)) {
        HeadIsInHistory(s, Of(step.r));
        HistoryStays(s, t, Of(step.r));
      }
      WentLateIsValid(s, step, t);
    } else {
      assert RunValid(s, step.r);
      WentEarlyIsValid(s, step, t);
    }
  }

  lemma CancelKeepsPc(s: System, r: nat, pc: Pc)
    requires r < |s.runs| && PcValid(s, r, pc)
    ensures PcValid(Next(s, CancelRun(r)), r, pc)
  {
    var t := Next(s, CancelRun(r));
    assert t.history == s.history && t.snapshots == s.snapshots && t.first == s.first;
    if pc.Finishing? && pc.outcome == Completed {
      HistoryStays(s, t, Of(r));
    }
  }

  lemma SubjectPcStaysValid(s: System, step: Step)
    requires Inv(s) && Enabled(s, step) && Subject(step) in Next(s, step).executors
    requires !IsRequest(step)
    ensures var t := Next(s, step); PcValid(t, Subject(step), t.executors[Subject(step)])
  {
    var r := Subject(step);
    assert r in s.executors ==> PcValid(s, r, s.executors[r]);
    if step.CancelRun? {
      CancelKeepsPc(s, r, s.executors[r]);
    } else {
      OwnStepStaysValid(s, step);
    }
  }

  lemma StepKeepsPcs(s: System, step: Step)
    requires Inv(s) && Enabled(s, step)
    ensures var t := Next(s, step); forall r | r in t.executors :: PcValid(t, r, t.executors[r])
  {
    var t := Next(s, step);
    StepGrows(s, step);
    forall r | r in t.executors ensures PcValid(t, r, t.executors[r]) {
      if r == Subject(step) && !IsRequest(step) {
        SubjectPcStaysValid(s, step);
      } else {
        assert r in s.executors && PcValid(s, r, s.executors[r]);
        OthersStay(s, step, r);
        PcStaysValid(s, t, r, s.executors[r]);
      }
    }
  }

  lemma StepKeepsCaptures(s: System, step: Step)
    requires Inv(s) && Enabled(s, step)
    ensures var t := Next(s, step); forall c | c in t.captures :: Based(t, t.captures[c].version, t.captures[c].base)
  {
    var t := Next(s, step);
    StepKeepsHistory(s, step);
    forall c | c in t.captures ensures Based(t, t.captures[c].version, t.captures[c].base) {
      if c in s.captures && t.captures[c] == s.captures[c] {
        BasedStays(s, t, s.captures[c].version, s.captures[c].base);
      } else {
        assert s.history[|s.history| - 1].head == s.branch.head;
      }
    }
  }

  lemma EntryStaysValid(s: System, t: System, k: nat)
    requires Inv(s) && Grows(s, t) && k < |s.history|
    requires k < |s.history| && EntryValid(s, k)
    ensures EntryValid(t, k)
  {
    if s.history[k].mover.ByRun? {
      var r := s.history[k].mover.run;
      assert RunValid(s, r);
      assert RunMoves(s.runs[r], t.runs[r]);
    }
  }

  lemma NewEntryIsValid(s: System, step: Step)
    requires Inv(s) && Enabled(s, step) && |Next(s, step).history| == |s.history| + 1
    ensures EntryValid(Next(s, step), |s.history|)
  {
    if step.Commit? {
      var r := step.r;
      assert PcValid(s, r, s.executors[r]) && RunValid(s, r);
    }
  }

  lemma StepKeepsEntries(s: System, step: Step)
    requires Inv(s) && Enabled(s, step)
    ensures var t := Next(s, step); forall k | 0 <= k < |t.history| :: EntryValid(t, k)
  {
    var t := Next(s, step);
    StepGrows(s, step);
    StepKeepsHistory(s, step);
    forall k | 0 <= k < |t.history| ensures EntryValid(t, k) {
      if k < |s.history| {
        EntryStaysValid(s, t, k);
      } else {
        NewEntryIsValid(s, step);
      }
    }
  }

  lemma StepKeepsInv(s: System, step: Step)
    requires Inv(s) && Enabled(s, step)
    ensures Inv(Next(s, step))
  {
    StepKeepsVersions(s, step);
    StepKeepsRuns(s, step);
    StepKeepsPcs(s, step);
    StepKeepsCaptures(s, step);
    StepKeepsEntries(s, step);
  }

  // ----- whole runs of the system -----

  ghost predicate Initial(s: System) {
    && s.runs == [] && s.snapshots == {} && s.executors == map[] && s.captures == map[]
    && s.branch.version == s.first && s.history == [Version(s.branch.head, Start)]
    && (s.branch.head.Some? ==> s.branch.head.value.Older?)
  }

  const PROTOCOL: Runs.Machine<System, Step> :=
    Runs.Machine((s, x) => Enabled(s, x), (s, x) => if Enabled(s, x) then Next(s, x) else s)

  ghost predicate Reaches(s: System, steps: seq<Step>, t: System) {
    Runs.Run(PROTOCOL, s, steps, t)
  }

  lemma {:induction false} RunKeepsInv(s: System, steps: seq<Step>, t: System)
    requires Inv(s) && Reaches(s, steps, t)
    ensures Inv(t)
    decreases |steps|
  {
    if steps != [] {
      StepKeepsInv(s, steps[0]);
      RunKeepsInv(Next(s, steps[0]), steps[1..], t);
    }
  }

  /** If a run made version `k`, it was based on version `k - 1`, with the head of that version or nothing. */
  ghost predicate LosesNoUpdate(t: System, k: nat)
    requires 0 < k < |t.history|
  {
    t.history[k].mover.ByRun? ==>
      var r := t.history[k].mover.run;
      && r < |t.runs| && t.history[k].head == Some(Of(r)) && t.runs[r].baseVersion == t.first + k - 1
      && (t.runs[r].baseSnapshot == None || t.runs[r].baseSnapshot == t.history[k - 1].head)
  }

  /**
   Serial history: the version counts the history, which is never rewritten; every advance by a run
   starts from the version the run is based on, with that version's head or nothing as its base,
   so no update is lost; and no run advances the head twice.
   */
  lemma HistoryIsSerial(s: System, steps: seq<Step>, t: System)
    requires Initial(s) && Reaches(s, steps, t)
    ensures t.branch.version == t.first + |t.history| - 1 && t.history != []
    ensures t.branch.head == t.history[|t.history| - 1].head
    ensures forall k | 0 < k < |t.history| :: LosesNoUpdate(t, k)
    ensures forall j, k | 0 <= j < k < |t.history|
            && t.history[j].mover.ByRun? :: t.history[j].mover != t.history[k].mover
  {
    RunKeepsInv(s, steps, t);
    forall k | 0 < k < |t.history| ensures LosesNoUpdate(t, k) {
      assert EntryValid(t, k);
    }
    forall j, k | 0 <= j < k < |t.history| && t.history[j].mover.ByRun?
      ensures t.history[j].mover != t.history[k].mover
    {
      assert EntryValid(t, j) && EntryValid(t, k);
    }
  }

  /** One step appends at most one version, and rewrites none. */
  lemma StepAdvancesByOne(s: System, step: Step)
    requires Inv(s) && Enabled(s, step)
    ensures var t := Next(s, step);
            t.history == s.history || (t.history[..|s.history|] == s.history && |t.history| == |s.history| + 1
                                       && t.branch.version == s.branch.version + 1)
  {
    StepKeepsHistory(s, step);
    StepKeepsVersions(s, step);
  }

  /** However often a run is executed: `completed` means its snapshot is, or was, the head. */
  lemma CompletedIsInHistory(s: System, steps: seq<Step>, t: System, r: nat)
    requires Initial(s) && Reaches(s, steps, t) && r < |t.runs| && t.runs[r].status == Completed
    ensures t.runs[r].result == Some(Of(r)) && InHistory(t, Of(r))
  {
    RunKeepsInv(s, steps, t);
    assert RunValid(t, r);
  }

  /** A cancelled run owns no snapshot and never moved the head. */
  lemma CancelledNeverPersisted(s: System, steps: seq<Step>, t: System, r: nat)
    requires Initial(s) && Reaches(s, steps, t) && r < |t.runs| && t.runs[r].status == Cancelled
    ensures r !in t.snapshots && !InHistory(t, Of(r))
    ensures forall k | 0 <= k < |t.history| :: t.history[k].mover != ByRun(r)
  {
    RunKeepsInv(s, steps, t);
    assert RunValid(t, r);
    forall k | 0 <= k < |t.history| ensures t.history[k].mover != ByRun(r) && t.history[k].head != Some(Of(r)) {
      assert EntryValid(t, k);
    }
  }

  lemma StepKeepsTerminal(s: System, step: Step, r: nat)
    requires Inv(s) && Enabled(s, step) && r < |s.runs| && Terminal(s.runs[r].status)
    ensures var t := Next(s, step); r < |t.runs| && t.runs[r].status == s.runs[r].status
  {
    StepGrows(s, step);
    assert RunMoves(s.runs[r], Next(s, step).runs[r]);
    NothingFollowsTerminal(s.runs[r].status, Next(s, step).runs[r].status);
  }

  lemma NothingFollowsTerminal(a: Status, b: Status)
    requires Terminal(a) && StatusMoves(a, b)
    ensures a == b
  {
  }

  /** A terminal status stays, whatever happens afterwards. */
  lemma {:induction false} TerminalStays(s: System, steps: seq<Step>, t: System, r: nat)
    requires Inv(s) && Reaches(s, steps, t) && r < |s.runs| && Terminal(s.runs[r].status)
    ensures r < |t.runs| && t.runs[r].status == s.runs[r].status
    decreases |steps|
  {
    if steps != [] {
      StepKeepsInv(s, steps[0]);
      StepKeepsTerminal(s, steps[0], r);
      TerminalStays(Next(s, steps[0]), steps[1..], t, r);
    }
  }

  /** Every stored status change is one the table allows, or a failure update of a run still open. */
  lemma StatusFollowsTheTable(s: System, step: Step, r: nat)
    requires Inv(s) && Enabled(s, step) && r < |s.runs|
    ensures r < |Next(s, step).runs|
    ensures var a, b := s.runs[r].status, Next(s, step).runs[r].status;
            a == b || b in Allowed(a) || (b == Failed && !Terminal(a))
  {
    StepGrows(s, step);
    assert RunMoves(s.runs[r], Next(s, step).runs[r]);
  }

  // ----- replayed commits -----

  ghost predicate HasAdvanced(s: System, r: nat) {
    exists k | 0 <= k < |s.history| :: s.history[k].mover == ByRun(r)
  }

  /** The step gives its executor a verdict it did not have. */
  predicate GivesVerdict(s: System, step: Step, r: nat)
    requires Enabled(s, step)
  {
    Executor(step) == Some(r) && WentTo(s, step).Some? && WentTo(s, step).value.Finishing?
  }

  /** Verdicts are given by an advance, or by reading the branch once more after one was refused. */
  lemma VerdictSteps(s: System, step: Step, r: nat)
    requires Enabled(s, step) && GivesVerdict(s, step, r)
    ensures (step == Commit(r) && s.branch.version == s.executors[r].base) || step == Reread(r)
  {
  }

  /**
   Whoever moved the head in between: a verdict is `completed` if and only if the head at that very
   moment is the run's own snapshot.
   */
  lemma VerdictIsExact(s: System, step: Step, r: nat)
    requires Enabled(s, step) && GivesVerdict(s, step, r)
    ensures var outcome := WentTo(s, step).value.outcome;
            && outcome in {Completed, CompletedWithConflict}
            && (outcome == Completed <==> Next(s, step).branch.head == Some(Of(r)))
  {
    VerdictSteps(s, step, r);
  }

  lemma AdvancedAboveBase(s: System, r: nat)
    requires Inv(s) && HasAdvanced(s, r)
    ensures r < |s.runs| && s.runs[r].baseVersion < s.branch.version
  {
    var k :| 0 <= k < |s.history| && s.history[k].mover == ByRun(r);
    assert EntryValid(s, k);
  }

  /** A run that has advanced the head never does so again: its commit is refused, and it reads the branch. */
  lemma AdvancedIsRefused(s: System, r: nat)
    requires Inv(s) && r in s.executors && s.executors[r].Committing? && HasAdvanced(s, r)
    ensures var t := Next(s, Commit(r)); t.executors[r].Rereading? && t.history == s.history && t.branch == s.branch
  {
    AdvancedAboveBase(s, r);
    assert PcValid(s, r, s.executors[r]);
  }

  /**
   Over every run, with anything between the two operations of a commit: a run that has advanced the
   head never does so again, and a verdict is `completed` exactly if the head then is its snapshot.
   */
  lemma CommitVerdict(s: System, steps: seq<Step>, t: System, step: Step, r: nat)
    requires Initial(s) && Reaches(s, steps, t) && Enabled(t, step)
    ensures step == Commit(r) && HasAdvanced(t, r) ==>
              Next(t, step).executors[r].Rereading? && Next(t, step).history == t.history
    ensures GivesVerdict(t, step, r) ==>
              (WentTo(t, step).value.outcome == Completed <==> Next(t, step).branch.head == Some(Of(r)))
  {
    RunKeepsInv(s, steps, t);
    if step == Commit(r) && HasAdvanced(t, r) {
      AdvancedIsRefused(t, r);
    }
    if GivesVerdict(t, step, r) {
      VerdictIsExact(t, step, r);
    }
  }

  /** Nothing between the two operations of a commit. */
  lemma UninterruptedVerdict(s: System, r: nat)
    requires Inv(s) && r in s.executors && s.executors[r].Committing?
    ensures var t := Next(s, Commit(r));
            if t.executors[r].Finishing? then
              t.executors[r].outcome == Completed && s.branch.version == s.executors[r].base
            else
              && Enabled(t, Reread(r)) && t.branch == s.branch
              && var u := Next(t, Reread(r));
                 u.executors[r].Finishing? && u.executors[r].outcome in {Completed, CompletedWithConflict}
                 && (u.executors[r].outcome == Completed <==> s.branch.head == Some(Of(r)))
  {
    var t := Next(s, Commit(r));
    if t.executors[r].Rereading? {
      VerdictIsExact(t, Reread(r), r);
    }
  }

  /** A commit without interruption is one of the runs, and its executor goes on with the same verdict. */
  lemma CommitIsARun(s: System, r: nat) returns (steps: seq<Step>, t: System)
    requires Inv(s) && r in s.executors && s.executors[r].Committing?
    ensures Reaches(s, steps, t) && t.branch == SetHead(s.branch, s.executors[r].base, Of(r)).branch && t.runs == s.runs
    ensures r in t.executors && t.executors[r].Finishing?
    ensures t.executors[r].outcome == CompletedWithConflict
            <==> CommitOf(s.branch, s.executors[r].base, Of(r)).outcome == Conflict
    ensures t.executors[r].outcome in {Completed, CompletedWithConflict}
  {
    UninterruptedVerdict(s, r);
    t := Next(s, Commit(r));
    Onward(s, [], s, Commit(r), t);
    steps := [] + [Commit(r)];
    CommitMovesHead(s, r);
    if t.executors[r].Rereading? {
      var u := Next(t, Reread(r));
      Onward(s, steps, t, Reread(r), u);
      RereadKeepsAll(t, r);
      steps, t := steps + [Reread(r)], u;
    }
  }

  lemma CommitMovesHead(s: System, r: nat)
    requires Enabled(s, Commit(r))
    ensures var t := Next(s, Commit(r));
            t.branch == SetHead(s.branch, s.executors[r].base, Of(r)).branch && t.runs == s.runs
  {
  }

  lemma RereadKeepsAll(s: System, r: nat)
    requires Enabled(s, Reread(r))
    ensures Next(s, Reread(r)).branch == s.branch && Next(s, Reread(r)).runs == s.runs
  {
  }

  /** A persisting retry whose executor, if any, has not got past loading it. */
  predicate StuckRetry(s: System, r: nat) {
    && r < |s.runs| && s.runs[r].retryOf.Some? && s.runs[r].status == Persisting
    && (r in s.executors ==> s.executors[r] in {Taken(Persisting), Loading})
  }

  lemma StuckRunStays(s: System, step: Step, r: nat)
    requires Enabled(s, step) && StuckRetry(s, r) && r == Subject(step) && !IsRequest(step)
    ensures !IsLate(step) && r < |RunsEarly(s, step)| && RunsEarly(s, step)[r] == s.runs[r]
  {
  }

  lemma StuckExecutorStays(s: System, step: Step, r: nat)
    requires Enabled(s, step) && StuckRetry(s, r) && Executor(step) == Some(r)
    ensures WentTo(s, step) in {None, Some(Taken(Persisting)), Some(Loading)}
  {
  }

  lemma StuckStays(s: System, step: Step, r: nat)
    requires Enabled(s, step) && StuckRetry(s, r)
    ensures StuckRetry(Next(s, step), r)
  {
    if r != Subject(step) || IsRequest(step) {
      OthersStay(s, step, r);
    } else {
      StuckRunStays(s, step, r);
      if Executor(step).Some? {
        StuckExecutorStays(s, step, r);
      }
    }
  }

  /** A retry that crashed while persisting is never taken up again: its job looks for `queued`. */
  lemma {:induction false} PersistingRetryStays(s: System, steps: seq<Step>, t: System, r: nat)
    requires Reaches(s, steps, t) && StuckRetry(s, r)
    ensures StuckRetry(t, r)
    decreases |steps|
  {
    if steps != [] {
      StuckStays(s, steps[0], r);
      PersistingRetryStays(Next(s, steps[0]), steps[1..], t, r);
    }
  }

  lemma AtAgain(s: System, r: nat, pc: Pc, later: Pc)
    ensures At(At(s, r, pc), r, later) == At(s, r, later)
  {
    assert s.executors[r := pc][r := later] == s.executors[r := later];
  }

  /** The step writes nothing and leaves its executor at `later`. */
  predicate OnlyGoes(s: System, step: Step, r: nat, later: Pc)
    requires Enabled(s, step)
  {
    && Executor(step) == Some(r) && WentTo(s, step) == Some(later)
    && RunsAfter(s, step) == s.runs && HeadAsked(s, step) == None && !step.Save?
  }

  lemma OnlyExecutorMoves(s: System, step: Step, r: nat, later: Pc)
    requires Enabled(s, step) && OnlyGoes(s, step, r, later)
    ensures Next(s, step) == At(s, r, later)
  {
    assert !step.ReadBranch?;
  }

  /** A step that only moves its executor on. */
  lemma Goes(s: System, before: seq<Step>, t: System, r: nat, pc: Pc, step: Step, later: Pc)
    requires Reaches(s, before, At(t, r, pc)) && Enabled(At(t, r, pc), step) && OnlyGoes(At(t, r, pc), step, r, later)
    ensures Reaches(s, before + [step], At(t, r, later))
  {
    OnlyExecutorMoves(At(t, r, pc), step, r, later);
    AtAgain(t, r, pc, later);
    Onward(s, before, At(t, r, pc), step, At(t, r, later));
  }

  lemma Takes(s: System, before: seq<Step>, t: System, r: nat)
    requires Reaches(s, before, t) && Enabled(t, Take(r)) && t.runs[r].status != WaitingForCapacity
    ensures Reaches(s, before + [Take(r)] + [Acquire(r)], At(t, r, Loading))
  {
    var first := Taken(t.runs[r].status);
    OnlyExecutorMoves(t, Take(r), r, first);
    Onward(s, before, t, Take(r), At(t, r, first));
    Goes(s, before + [Take(r)], t, r, first, Acquire(r), Loading);
  }

  lemma TakenUp(s: System, r: nat) returns (steps: seq<Step>, t: System)
    requires r < |s.runs| && s.runs[r].retryOf == None && s.runs[r].status == Persisting && r !in s.executors
    ensures Reaches(s, steps, t)
    ensures t == At(s, r, if r in s.snapshots then Committing(s.runs[r].baseVersion, true) else Abandoning)
  {
    var later := if r in s.snapshots then Committing(s.runs[r].baseVersion, true) else Abandoning;
    t := At(s, r, later);
    Takes(s, [], s, r);
    LoadsPersisting(s, r, later);
    Goes(s, [] + [Take(r)] + [Acquire(r)], s, r, Loading, Load(r), later);
    steps := [] + [Take(r)] + [Acquire(r)] + [Load(r)];
  }

  lemma LoadsPersisting(s: System, r: nat, later: Pc)
    requires r < |s.runs| && s.runs[r].retryOf == None && s.runs[r].status == Persisting
    requires later == if r in s.snapshots then Committing(s.runs[r].baseVersion, true) else Abandoning
    ensures Enabled(At(s, r, Loading), Load(r)) && OnlyGoes(At(s, r, Loading), Load(r), r, later)
  {
  }

  lemma VerdictIsStored(s: System, before: seq<Step>, t: System, r: nat) returns (steps: seq<Step>, u: System)
    requires Reaches(s, before, t) && r in t.executors && t.executors[r].Finishing?
    requires r < |t.runs| && t.runs[r].status == Persisting
    requires t.executors[r].outcome in {Completed, CompletedWithConflict}
    ensures Reaches(s, steps, u) && r < |u.runs| && Terminal(u.runs[r].status)
  {
    u := Next(t, Finish(r));
    Onward(s, before, t, Finish(r), Next(t, Finish(r)));
    steps := before + [Finish(r)];
  }

  lemma CommitFinishes(s: System, before: seq<Step>, t: System, r: nat) returns (steps: seq<Step>, u: System)
    requires Reaches(s, before, t) && r in t.executors && t.executors[r].Committing?
    requires r < |t.runs| && t.runs[r].status == Persisting
    ensures Reaches(s, steps, u) && r < |u.runs| && Terminal(u.runs[r].status)
  {
    var t1 := Next(t, Commit(r));
    Onward(s, before, t, Commit(r), Next(t, Commit(r)));
    if t1.executors[r].Rereading? {
      Onward(s, before + [Commit(r)], t1, Reread(r), Next(t1, Reread(r)));
      steps, u := VerdictIsStored(s, before + [Commit(r)] + [Reread(r)], Next(t1, Reread(r)), r);
    } else {
      steps, u := VerdictIsStored(s, before + [Commit(r)], t1, r);
    }
  }

  /** A persisting first attempt that crashed can always be finished: a path to a terminal status is there. */
  lemma PersistingRunRecovers(s: System, r: nat) returns (steps: seq<Step>, t: System)
    requires r < |s.runs| && s.runs[r].retryOf == None && s.runs[r].status == Persisting && r !in s.executors
    ensures Reaches(s, steps, t) && r < |t.runs| && Terminal(t.runs[r].status)
  {
    var before, mid := TakenUp(s, r);
    if r in s.snapshots {
      steps, t := CommitFinishes(s, before, mid, r);
    } else {
      t := Next(mid, Abandon(r));
      Onward(s, before, mid, Abandon(r), Next(mid, Abandon(r)));
      steps := before + [Abandon(r)];
    }
  }

  /** Some run of the system gives run `r` a terminal status. */
  ghost predicate CanFinish(s: System, r: nat) {
    exists steps, t :: Reaches(s, steps, t) && r < |t.runs| && Terminal(t.runs[r].status)
  }

  /** A persisting run that nobody executes can be finished if and only if it is a first attempt. */
  lemma RecoversExactly(s: System, r: nat)
    requires r < |s.runs| && s.runs[r].status == Persisting && r !in s.executors
    ensures CanFinish(s, r) <==> s.runs[r].retryOf == None
  {
    if s.runs[r].retryOf == None {
      var steps, t := PersistingRunRecovers(s, r);
      assert Reaches(s, steps, t) && r < |t.runs| && Terminal(t.runs[r].status);
    } else if CanFinish(s, r) {
      var steps, t :| Reaches(s, steps, t) && r < |t.runs| && Terminal(t.runs[r].status);
      PersistingRetryStays(s, steps, t, r);
    }
  }

  // ----- a run that advanced the head and is told of a conflict -----

  function Scene(branch: Branch, run: Run, snapshots: set<nat>, executors: map<nat, Pc>,
                 history: seq<Version>): System {
    System(0, branch, [run], snapshots, executors, map[0 := Capture(branch.version, branch.head)], history)
  }

  function FirstRun(status: Status): Run {
    Run(status, 0, None, None, false, None)
  }

  const BLANK := System(0, Branch(None, 0), [], {}, map[], map[], [Version(None, Start)])

  lemma Onward(s: System, steps: seq<Step>, t: System, step: Step, u: System)
    requires Reaches(s, steps, t) && Enabled(t, step) && Next(t, step) == u
    ensures Reaches(s, steps + [step], u)
  {
    Runs.OneMore(PROTOCOL, s, steps, t, step, u);
  }

  const INITIAL_HISTORY := [Version(None, Start)]

  lemma RunIsCreated() returns (steps: seq<Step>, t: System)
    ensures Reaches(BLANK, steps, t) && t == Scene(Branch(None, 0), FirstRun(Queued), {}, map[], INITIAL_HISTORY)
  {
    var s1 := BLANK.(captures := map[0 := Capture(0, None)]);
    Onward(BLANK, [], BLANK, ReadBranch(0, true), s1);
    t := Scene(Branch(None, 0), FirstRun(Queued), {}, map[], INITIAL_HISTORY);
    steps := [] + [ReadBranch(0, true)];
    Onward(BLANK, steps, s1, CreateRun(0), t);
    steps := steps + [CreateRun(0)];
  }

  lemma RunIsTaken() returns (steps: seq<Step>, t: System)
    ensures Reaches(BLANK, steps, At(t, 0, Loading))
            && t == Scene(Branch(None, 0), FirstRun(Queued), {}, map[], INITIAL_HISTORY)
  {
    var before;
    before, t := RunIsCreated();
    Takes(BLANK, before, t, 0);
    steps := before + [Take(0)] + [Acquire(0)];
  }

  lemma RunIsStarting() returns (steps: seq<Step>, t: System)
    ensures Reaches(BLANK, steps, t)
    ensures t == Scene(Branch(None, 0), FirstRun(Queued), {}, map[0 := Starting(0)], INITIAL_HISTORY)
  {
    var s;
    steps, s := RunIsTaken();
    Goes(BLANK, steps, s, 0, Loading, Load(0), Starting(0));
    t := At(s, 0, Starting(0));
    steps := steps + [Load(0)];
  }

  lemma RunIsRunning() returns (steps: seq<Step>, t: System)
    ensures Reaches(BLANK, steps, t)
    ensures t == Scene(Branch(None, 0), FirstRun(Running), {}, map[0 := Working(Running, 0)], INITIAL_HISTORY)
  {
    var s;
    steps, s := RunIsStarting();
    t := s.(runs := [FirstRun(Running)], executors := map[0 := Working(Running, 0)]);
    Onward(BLANK, steps, s, Begin(0), t);
    steps := steps + [Begin(0)];
  }

  lemma RunIsValidating() returns (steps: seq<Step>, t: System)
    ensures Reaches(BLANK, steps, t)
    ensures t == Scene(Branch(None, 0), FirstRun(Validating), {}, map[0 := Working(Validating, 0)], INITIAL_HISTORY)
  {
    var s;
    steps, s := RunIsRunning();
    t := s.(runs := [FirstRun(Validating)], executors := map[0 := Working(Validating, 0)]);
    Onward(BLANK, steps, s, Move(0, Validating), t);
    steps := steps + [Move(0, Validating)];
  }

  lemma RunIsSaving() returns (steps: seq<Step>, t: System)
    ensures Reaches(BLANK, steps, t)
    ensures t == Scene(Branch(None, 0), FirstRun(Persisting), {}, map[0 := Saving(0)], INITIAL_HISTORY)
  {
    var s;
    steps, s := RunIsValidating();
    t := s.(runs := [FirstRun(Persisting)], executors := map[0 := Saving(0)]);
    Onward(BLANK, steps, s, Persist(0), t);
    steps := steps + [Persist(0)];
  }

  lemma RunIsCommitting() returns (steps: seq<Step>, t: System)
    ensures Reaches(BLANK, steps, t)
    ensures t == Scene(Branch(None, 0), FirstRun(Persisting), {0}, map[0 := Committing(0, false)], INITIAL_HISTORY)
  {
    var s;
    steps, s := RunIsSaving();
    t := s.(snapshots := {0}, executors := map[0 := Committing(0, false)]);
    Onward(BLANK, steps, s, Save(0), t);
    steps := steps + [Save(0)];
  }

  lemma RunAdvances() returns (steps: seq<Step>, t: System)
    ensures Reaches(BLANK, steps, t)
    ensures t.branch == Branch(Some(Of(0)), 1) && t.runs == [FirstRun(Persisting)] && t.snapshots == {0}
    ensures t.history == [Version(None, Start), Version(Some(Of(0)), ByRun(0))] && t.first == 0
            && t.executors.Keys == {0}
  {
    var before, s := RunIsCommitting();
    t := Next(s, Commit(0));
    Onward(BLANK, before, s, Commit(0), t);
    steps := before + [Commit(0)];
  }

  lemma RunAdvancesThenCrashes() returns (steps: seq<Step>, t: System)
    ensures Reaches(BLANK, steps, t)
    ensures t.branch == Branch(Some(Of(0)), 1) && t.runs == [FirstRun(Persisting)] && t.snapshots == {0}
    ensures t.executors == map[] && t.history == [Version(None, Start), Version(Some(Of(0)), ByRun(0))] && t.first == 0
  {
    var before, s := RunAdvances();
    t := Next(s, Crash(0));
    Onward(BLANK, before, s, Crash(0), t);
    steps := before + [Crash(0)];
  }

  lemma RolledBackMeanwhile() returns (steps: seq<Step>, t: System)
    ensures Reaches(BLANK, steps, t)
    ensures t.branch == Branch(Some(Older(7)), 2) && t.runs == [FirstRun(Persisting)] && t.snapshots == {0}
    ensures t.executors == map[] && |t.history| == 3 && t.history[1].mover == ByRun(0)
  {
    var before, s := RunAdvancesThenCrashes();
    var s1 := s.(captures := s.captures[0 := Capture(1, Some(Of(0)))]);
    Onward(BLANK, before, s, ReadBranch(0, true), s1);
    t := Next(s1, RollBack(0, Older(7)));
    Onward(BLANK, before + [ReadBranch(0, true)], s1, RollBack(0, Older(7)), Next(s1, RollBack(0, Older(7))));
    steps := before + [ReadBranch(0, true)] + [RollBack(0, Older(7))];
  }

  lemma ReplayFindsConflict(s: System, t: System) returns (steps: seq<Step>)
    requires s.branch == Branch(Some(Older(7)), 2) && t == At(s, 0, Committing(0, true))
    ensures Reaches(t, steps, At(s, 0, Finishing(CompletedWithConflict, true)))
  {
    Onward(t, [], t, Commit(0), At(t, 0, Rereading(0, true)));
    AtAgain(s, 0, Committing(0, true), Rereading(0, true));
    Goes(t, [] + [Commit(0)], s, 0, Rereading(0, true), Reread(0), Finishing(CompletedWithConflict, true));
    steps := [] + [Commit(0)] + [Reread(0)];
  }

  lemma ReplayConflicts(s: System, t: System) returns (steps: seq<Step>, u: System)
    requires s.branch == Branch(Some(Older(7)), 2) && s.runs == [FirstRun(Persisting)]
    requires t == At(s, 0, Committing(0, true))
    ensures Reaches(t, steps, u) && |u.runs| == 1 && u.runs[0].status == CompletedWithConflict && u.history == s.history
  {
    steps := ReplayFindsConflict(s, t);
    var last := At(s, 0, Finishing(CompletedWithConflict, true));
    u := Next(last, Finish(0));
    Onward(t, steps, last, Finish(0), u);
    steps := steps + [Finish(0)];
  }

  /** It crashes after advancing, the head is moved on by a rollback, and the replay reports a conflict. */
  lemma ConflictMayHaveAdvanced() returns (steps: seq<Step>, t: System)
    ensures Initial(BLANK) && Reaches(BLANK, steps, t)
    ensures |t.runs| == 1 && t.runs[0].status == CompletedWithConflict && HasAdvanced(t, 0)
  {
    var before, s := RolledBackMeanwhile();
    var more, mid := TakenUp(s, 0);
    Runs.RunsJoin(PROTOCOL, BLANK, before, s, more, mid);
    var last, u := ReplayConflicts(s, mid);
    Runs.RunsJoin(PROTOCOL, BLANK, before + more, mid, last, u);
    steps, t := before + more + last, u;
    assert t.history[1].mover == ByRun(0);
  }

  // ----- the head may move between the two operations of a commit -----

  /** The replayed commit is refused while the head still is the run's own snapshot. */
  lemma ReplayIsRefused() returns (steps: seq<Step>, t: System)
    ensures Reaches(BLANK, steps, t) && HasAdvanced(t, 0)
    ensures t.branch == Branch(Some(Of(0)), 1) && t.executors == map[0 := Rereading(0, true)]
  {
    var before, s := RunAdvancesThenCrashes();
    var more, mid := TakenUp(s, 0);
    Runs.RunsJoin(PROTOCOL, BLANK, before, s, more, mid);
    assert s.history[1].mover == ByRun(0) && mid.history == s.history;
    t := Refused(s, mid);
    Onward(BLANK, before + more, mid, Commit(0), t);
    steps := before + more + [Commit(0)];
  }

  lemma Refused(s: System, mid: System) returns (t: System)
    requires s.branch.version == 1 && |s.runs| == 1 && s.executors == map[]
    requires mid == At(s, 0, Committing(0, true))
    ensures t == Next(mid, Commit(0)) && t == At(s, 0, Rereading(0, true))
  {
    AtAgain(s, 0, Committing(0, true), Rereading(0, true));
    t := Next(mid, Commit(0));
  }

  /** A rollback to another snapshot, by a handler that reads the branch first. */
  lemma RollsBack(s: System) returns (steps: seq<Step>, t: System)
    ensures Reaches(s, steps, t) && t.branch.head == Some(Older(7))
    ensures t.executors == s.executors && t.runs == s.runs
  {
    var u := Next(s, ReadBranch(0, true));
    t := Next(u, RollBack(0, Older(7)));
    Onward(s, [], s, ReadBranch(0, true), u);
    Onward(s, [] + [ReadBranch(0, true)], u, RollBack(0, Older(7)), t);
    steps := [] + [ReadBranch(0, true)] + [RollBack(0, Older(7))];
  }

  /** It reads the branch only after a rollback, and is told of a conflict. */
  lemma VerdictMayChange() returns (steps: seq<Step>, t: System, more: seq<Step>, u: System)
    ensures Initial(BLANK) && Reaches(BLANK, steps, t) && HasAdvanced(t, 0)
    ensures t.branch.head == Some(Of(0)) && t.executors == map[0 := Rereading(0, true)]
    ensures Reaches(t, more, u) && 0 in u.executors && u.executors[0] == Finishing(CompletedWithConflict, true)
  {
    steps, t := ReplayIsRefused();
    var v;
    more, v := RollsBack(t);
    u := Next(v, Reread(0));
    VerdictIsExact(v, Reread(0), 0);
    Onward(t, more, v, Reread(0), u);
    more := more + [Reread(0)];
  }

  // ----- a retry that stops while persisting -----

  const RETRY := Run(Queued, 0, None, Some(0), false, None)

  /** One failed attempt, and its retry with the given status and executor. */
  function Retried(status: Status, executors: map<nat, Pc>): System {
    System(0, Branch(None, 0), [FirstRun(Failed).(retryable := true), RETRY.(status := status)], {}, executors,
           map[0 := Capture(0, None)], INITIAL_HISTORY)
  }

  lemma FirstAttemptThrows() returns (steps: seq<Step>)
    ensures Reaches(BLANK, steps, Scene(Branch(None, 0), FirstRun(Running), {}, map[0 := Failing], INITIAL_HISTORY))
  {
    var before, s := RunIsRunning();
    Onward(BLANK, before, s, Throw(0),
           Scene(Branch(None, 0), FirstRun(Running), {}, map[0 := Failing], INITIAL_HISTORY));
    steps := before + [Throw(0)];
  }

  lemma FirstAttemptFails() returns (steps: seq<Step>)
    ensures Reaches(BLANK, steps,
                    Scene(Branch(None, 0), FirstRun(Failed).(retryable := true), {}, map[], INITIAL_HISTORY))
  {
    steps := FirstAttemptThrows();
    Onward(BLANK, steps, Scene(Branch(None, 0), FirstRun(Running), {}, map[0 := Failing], INITIAL_HISTORY),
           Fail(0, true),
           Scene(Branch(None, 0), FirstRun(Failed).(retryable := true), {}, map[], INITIAL_HISTORY));
    steps := steps + [Fail(0, true)];
  }

  lemma RetryIsTaken() returns (steps: seq<Step>)
    ensures Reaches(BLANK, steps, At(Retried(Queued, map[]), 1, Loading))
  {
    var before := FirstAttemptFails();
    var s := Scene(Branch(None, 0), FirstRun(Failed).(retryable := true), {}, map[], INITIAL_HISTORY);
    Onward(BLANK, before, s, CreateRetry(0), Retried(Queued, map[]));
    steps := before + [CreateRetry(0)];
    Takes(BLANK, steps, Retried(Queued, map[]), 1);
    steps := steps + [Take(1)] + [Acquire(1)];
  }

  lemma RetryIsStarting() returns (steps: seq<Step>)
    ensures Reaches(BLANK, steps, At(Retried(Queued, map[]), 1, Starting(0)))
  {
    steps := RetryIsTaken();
    Goes(BLANK, steps, Retried(Queued, map[]), 1, Loading, Load(1), Starting(0));
    steps := steps + [Load(1)];
  }

  lemma RetryIsRunning() returns (steps: seq<Step>)
    ensures Reaches(BLANK, steps, Retried(Running, map[1 := Working(Running, 0)]))
  {
    steps := RetryIsStarting();
    Onward(BLANK, steps, At(Retried(Queued, map[]), 1, Starting(0)), Begin(1),
           Retried(Running, map[1 := Working(Running, 0)]));
    steps := steps + [Begin(1)];
  }

  lemma RetryIsValidating() returns (steps: seq<Step>)
    ensures Reaches(BLANK, steps, Retried(Validating, map[1 := Working(Validating, 0)]))
  {
    steps := RetryIsRunning();
    Onward(BLANK, steps, Retried(Running, map[1 := Working(Running, 0)]), Move(1, Validating),
           Retried(Validating, map[1 := Working(Validating, 0)]));
    steps := steps + [Move(1, Validating)];
  }

  lemma RetryIsPersisting() returns (steps: seq<Step>)
    ensures Reaches(BLANK, steps, Retried(Persisting, map[1 := Saving(0)]))
  {
    steps := RetryIsValidating();
    Onward(BLANK, steps, Retried(Validating, map[1 := Working(Validating, 0)]), Persist(1),
           Retried(Persisting, map[1 := Saving(0)]));
    steps := steps + [Persist(1)];
  }

  /** A retry reaches `persisting` and its executor stops: no run will ever finish it. */
  lemma RetryGetsStuck() returns (steps: seq<Step>, t: System)
    ensures Initial(BLANK) && Reaches(BLANK, steps, t)
    ensures StuckRetry(t, 1) && 1 !in t.executors && !CanFinish(t, 1)
  {
    steps := RetryIsPersisting();
    t := Retried(Persisting, map[]);
    Onward(BLANK, steps, Retried(Persisting, map[1 := Saving(0)]), Crash(1), t);
    steps := steps + [Crash(1)];
    RecoversExactly(t, 1);
  }
}
