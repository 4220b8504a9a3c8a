/**
 Generation with validation: the repair loop, for every behaviour of the model, the validator and
 the event listener.
 */
module RepairLoop {
  import opened Results
  import opened ProjectFiles
  import BranchRuns

  datatype Category = CodeError | DependencyError | InfraError | StylingError

  datatype Verdict = Passed | NotPassed | Skipped

  datatype Validation = Validation(verdict: Verdict, simulated: bool, category: Option<Category>, fingerprint: string)

  datatype Generation = Generation(
    message: string, operations: seq<Operation>,
    dependencies: map<string, string>, devDependencies: map<string, string>)

  /** The model: a plan, a first generation and repairs, each of which may fail to come. */
  datatype Model = Model(
    plans: bool, generate: Option<Generation>, repair: (nat, Tree, Validation) -> Option<Generation>)

  /** The validator's answer to its n-th call; none when it throws. */
  type Validator = (nat, Tree) -> Option<Validation>

  datatype Event =
    | PlanStarted
    | PlanReady
    | GenerationStep(attempt: nat)
    | FileChanged(path: string, repairAttempt: nat)
    | ValidationStarted(attempt: nat)
    | ValidationPassed
    | ValidationFailed
    | RepairStarted(attempt: nat)

  /** onEvent: given all events so far, this one last, does it return normally? */
  type Listener = seq<Event> -> bool

  /** How package.json objects are printed: into the file, and for comparing two of them. */
  datatype Printer = Printer(pretty: PackageJson -> string, compact: PackageJson -> string)

  datatype Input = Input(
    edit: bool, baseFiles: seq<ProjectFile>, basePackageJson: Option<PackageJson>, runId: Option<string>,
    maxRepairAttempts: nat, model: Model, validator: Validator, listener: Listener, printer: Printer, order: Order)

  datatype Candidate = Candidate(files: Tree, packageJson: PackageJson, summary: string)

  datatype Outcome =
    | Verified(candidate: Candidate, repairAttempts: nat)
    | NotVerified
    | Infrastructure(candidate: Candidate)
    | RepeatedFailure
    | FailedValidation
    | NoEffectiveChanges
    | BadOperations(error: Error)
    | ModelFailed
    | ValidatorThrew
    | ListenerThrew

  /** One call of the validator, with what was current and what it answered. */
  datatype Call = Call(attempt: nat, candidate: Candidate, answer: Option<Validation>)

  // ----- the status the events drive -----

  /** The transition that the phase of an event asks for; an event without a phase asks for none. */
  function Asked(status: BranchRuns.Status, e: Event): Option<(BranchRuns.Status, BranchRuns.Status)> {
    match e
    case PlanStarted => Some((BranchRuns.Running, BranchRuns.Planning))
    case GenerationStep(_) =>
      Some((if status == BranchRuns.Planning then BranchRuns.Planning else BranchRuns.Repairing, BranchRuns.Generating))
    case ValidationStarted(_) => Some((BranchRuns.Generating, BranchRuns.Validating))
    case RepairStarted(_) => Some((BranchRuns.Validating, BranchRuns.Repairing))
    case _ => None
  }

  /** transitionRun() on an event: the next status, or none when it would be refused. */
  function Drive(status: BranchRuns.Status, e: Event): Option<BranchRuns.Status> {
    match Asked(status, e)
    case None => Some(status)
    case Some((expected, next)) =>
      if status == expected && next in BranchRuns.Allowed(expected) then Some(next) else None
  }

  /** What is driven is a transition of the table, from the stored status; anything else is refused. */
  lemma DriveFollowsTheTable(status: BranchRuns.Status, e: Event)
    ensures Drive(status, e) == Some(status) <==> Asked(status, e) == None
    ensures Drive(status, e).Some? && Asked(status, e).Some? ==> Drive(status, e).value in BranchRuns.Allowed(status)
  {
  }

  function DriveAll(status: BranchRuns.Status, events: seq<Event>): Option<BranchRuns.Status> {
    if events == [] then Some(status)
    else
      match DriveAll(status, events[..|events| - 1])
      case None => None
      case Some(s) => Drive(s, events[|events| - 1])
  }

  lemma DriveOneMore(events: seq<Event>, e: Event)
    ensures DriveAll(BranchRuns.Running, events + [e]) ==
            match DriveAll(BranchRuns.Running, events) case None => None case Some(s) => Drive(s, e)
  {
    assert (events + [e])[..|events|] == events;
  }

  // ----- what changed -----

  predicate Holds(files: seq<ProjectFile>, path: string, content: string) {
    exists i | 0 <= i < |files| :: files[i].path == path && files[i].content == content
  }

  predicate FilesChanged(before: Tree, after: Tree) {
    || (exists i | 0 <= i < |after| :: !Holds(before, after[i].path, after[i].content))
    || (exists i | 0 <= i < |before| :: !HasPath(after, before[i].path))
  }

  /** The content a map built from the files would give for a path; the last file wins. */
  function ContentAt(files: seq<ProjectFile>, path: string): Option<string> {
    if files == [] then None
    else if Paths.Slashed(files[|files| - 1].path) == path then Some(files[|files| - 1].content)
    else ContentAt(files[..|files| - 1], path)
  }

  predicate Effective(base: seq<ProjectFile>, op: Operation) {
    var existing := ContentAt(base, Paths.Slashed(op.path));
    match op
    case Delete(_) => existing.Some?
    case Write(_, content) => existing != Some(content)
  }

  predicate HasEffectiveFileChanges(base: seq<ProjectFile>, ops: seq<Operation>) {
    exists i | 0 <= i < |ops| :: Effective(base, ops[i])
  }

  // ----- what is promised -----

  function FileText(input: Input, p: PackageJson): string {
    input.printer.pretty(p) + "\n"
  }

  /** The tree a validator may be shown, or a caller be given. */
  ghost predicate Presentable(input: Input, c: Candidate) {
    && TreeValid(c.files) && Normalized(c.files) && KeepsRequired(input.baseFiles, c.files)
       && ServerOwned(c.packageJson)
    && (exists f | f in c.files :: f.path == PACKAGE_JSON && f.content == FileText(input, c.packageJson))
    && (TextOnly(input.baseFiles) ==> TextOnly(c.files))
  }

  predicate Repairable(answer: Option<Validation>) {
    answer.Some? && answer.value.verdict != Passed && answer.value.category != Some(InfraError)
  }

  /** Calls 0, 1, 2, …; all but the last one failed, each in its own way, and were repaired. */
  ghost predicate CallsValid(input: Input, calls: seq<Call>) {
    && |calls| <= input.maxRepairAttempts + 1
    && (forall i | 0 <= i < |calls| ::
          calls[i].attempt == i && calls[i].answer == input.validator(i, calls[i].candidate.files))
    && (forall i | 0 <= i < |calls| - 1 :: Repairable(calls[i].answer))
    && (forall i, j | 0 <= i < j < |calls| - 1 :: FailsAlike(calls[i], calls[j]) == false)
  }

  predicate FailsAlike(a: Call, b: Call) {
    a.answer.Some? && b.answer.Some? && a.answer.value.fingerprint == b.answer.value.fingerprint
  }

  predicate FingerprintSeen(calls: seq<Call>, fingerprint: string) {
    exists i | 0 <= i < |calls| :: calls[i].answer.Some? && calls[i].answer.value.fingerprint == fingerprint
  }

  ghost predicate OutcomeValid(input: Input, outcome: Outcome, events: seq<Event>, calls: seq<Call>) {
    match outcome
    case Verified(c, attempts) =>
      && |calls| == attempts + 1 && calls[attempts].candidate == c
      && calls[attempts].answer.Some? && calls[attempts].answer.value.verdict == Passed
         && !calls[attempts].answer.value.simulated
      && DriveAll(BranchRuns.Running, events) == Some(BranchRuns.Validating)
    case Infrastructure(c) => calls != [] && calls[|calls| - 1].candidate == c
    case RepeatedFailure =>
      calls != [] && Repairable(calls[|calls| - 1].answer)
      && FingerprintSeen(calls[..|calls| - 1], calls[|calls| - 1].answer.value.fingerprint)
    case FailedValidation => |calls| == input.maxRepairAttempts + 1 && Repairable(calls[|calls| - 1].answer)
    case _ => true
  }

  // ----- generations and repairs of the tree -----

  /** Operations on a tree, then the server's package.json. */
  function Rewrite(input: Input, files: seq<ProjectFile>, ops: seq<Operation>, p: PackageJson): Result<Tree, Error> {
    match Applied(input.order, files, ops, input.runId)
    case Err(e) => Err(e)
    case Ok(t) => WriteServerPackageJson(input.order, t, FileText(input, p), input.runId)
  }

  function FirstPackageJson(input: Input, g: Generation): PackageJson {
    MergeProjectPackageJson(input.basePackageJson, g.dependencies, g.devDependencies)
  }

  function Generated(input: Input, g: Generation): Result<Candidate, Outcome> {
    if input.edit && !HasEffectiveFileChanges(input.baseFiles, g.operations) then Err(NoEffectiveChanges)
    else
      match Rewrite(input, input.baseFiles, g.operations, FirstPackageJson(input, g))
      case Err(e) => Err(BadOperations(e))
      case Ok(files) => Ok(Candidate(files, FirstPackageJson(input, g), g.message))
  }

  function NextPackageJson(current: Candidate, g: Generation): PackageJson {
    MergeProjectPackageJson(Some(current.packageJson), g.dependencies, g.devDependencies)
  }

  function Repaired(input: Input, current: Candidate, g: Generation): Result<Candidate, Outcome> {
    var p := NextPackageJson(current, g);
    match Applied(input.order, current.files, g.operations, input.runId)
    case Err(e) => Err(BadOperations(e))
    case Ok(t) =>
      if input.printer.compact(p) == input.printer.compact(current.packageJson) && !FilesChanged(current.files, t)
      then Err(NoEffectiveChanges)
      else
        match WriteServerPackageJson(input.order, t, FileText(input, p), input.runId)
        case Err(e) => Err(BadOperations(e))
        case Ok(files) => Ok(Candidate(files, p, g.message))
  }

  /** What a tree kept of the base, operations on the tree keep again. */
  lemma RequiredStays(base: seq<ProjectFile>, files: Tree, t: Tree)
    requires TreeValid(files) && Normalized(files) && KeepsRequired(base, files) && KeepsRequired(files, t)
    ensures KeepsRequired(base, t)
  {
    forall f | f in base && Locate(f.path).Ok? && Locate(f.path).value in REQUIRED_TEMPLATE_FILES
      ensures HasPath(t, Locate(f.path).value)
    {
      var q := Locate(f.path).value;
      var i :| 0 <= i < |files| && files[i].path == q;
      assert files[i] in files;
      NormalizedIsLocated(q);
    }
  }

  lemma NormalizedIsLocated(path: string)
    requires NormalizeProjectPath(path) == Ok(path) && Tidy(path)
    ensures Locate(path) == Ok(path)
  {
  }

  lemma PathsKeepRequired(base: seq<ProjectFile>, t: Tree, r: Tree)
    requires KeepsRequired(base, t) && forall p :: HasPath(t, p) ==> HasPath(r, p)
    ensures KeepsRequired(base, r)
  {
  }

  /** The server's package.json written into a tree makes it presentable. */
  lemma WrittenIsPresentable(input: Input, t: Tree, p: PackageJson)
    requires Permutes(input.order) && ServerOwned(p) && TreeValid(t) && KeepsRequired(input.baseFiles, t)
    requires TextOnly(input.baseFiles) ==> TextOnly(t)
    requires WriteServerPackageJson(input.order, t, FileText(input, p), input.runId).Ok?
    ensures forall summary ::
              Presentable(input,
                          Candidate(WriteServerPackageJson(input.order, t, FileText(input, p), input.runId).value, p,
                                    summary))
  {
    var r := WriteServerPackageJson(input.order, t, FileText(input, p), input.runId).value;
    PackageJsonIsWritten(input.order, t, FileText(input, p), input.runId);
    AppliedIsValid(input.order, t, [Write(PACKAGE_JSON, FileText(input, p))], input.runId);
    PathsKeepRequired(input.baseFiles, t, r);
    assert ProjectFile(PACKAGE_JSON, FileText(input, p), "json", input.runId) in r;
  }

  lemma GeneratedIsPresentable(input: Input, g: Generation)
    requires Permutes(input.order) && Generated(input, g).Ok?
    ensures Presentable(input, Generated(input, g).value)
  {
    MergeIsServerOwned(input.basePackageJson, g.dependencies, g.devDependencies);
    AppliedIsValid(input.order, input.baseFiles, g.operations, input.runId);
    var t := Applied(input.order, input.baseFiles, g.operations, input.runId).value;
    WrittenIsPresentable(input, t, FirstPackageJson(input, g));
  }

  lemma AppliedToPresentable(input: Input, c: Candidate, ops: seq<Operation>)
    requires Permutes(input.order) && Presentable(input, c)
    requires Applied(input.order, c.files, ops, input.runId).Ok?
    ensures var t := Applied(input.order, c.files, ops, input.runId).value;
            && TreeValid(t) && KeepsRequired(input.baseFiles, t) && (TextOnly(input.baseFiles) ==> TextOnly(t))
  {
    AppliedIsValid(input.order, c.files, ops, input.runId);
    RequiredStays(input.baseFiles, c.files, Applied(input.order, c.files, ops, input.runId).value);
  }

  /** What a repair that succeeds comes to. */
  lemma RepairedIsWritten(input: Input, c: Candidate, g: Generation)
    requires Repaired(input, c, g).Ok?
    ensures Applied(input.order, c.files, g.operations, input.runId).Ok?
    ensures var t := Applied(input.order, c.files, g.operations, input.runId).value;
            var p := NextPackageJson(c, g);
            var written := WriteServerPackageJson(input.order, t, FileText(input, p), input.runId);
            written.Ok? && Repaired(input, c, g).value == Candidate(written.value, p, g.message)
  {
  }

  lemma RepairedIsPresentable(input: Input, c: Candidate, g: Generation)
    requires Permutes(input.order) && Presentable(input, c) && Repaired(input, c, g).Ok?
    ensures Presentable(input, Repaired(input, c, g).value)
  {
    RepairedIsWritten(input, c, g);
    MergeIsServerOwned(Some(c.packageJson), g.dependencies, g.devDependencies);
    AppliedToPresentable(input, c, g.operations);
    var t := Applied(input.order, c.files, g.operations, input.runId).value;
    WrittenIsPresentable(input, t, NextPackageJson(c, g));
  }

  method GenerateTree(input: Input, g: Generation) returns (result: Result<Candidate, Outcome>)
    ensures result == Generated(input, g)
  {
    if input.edit && !HasEffectiveFileChanges(input.baseFiles, g.operations) {
      return Err(NoEffectiveChanges);
    }
    var packageJson := FirstPackageJson(input, g);
    var files := ApplyFileOperations(input.order, input.baseFiles, g.operations, input.runId);
    if files.Err? {
      return Err(BadOperations(files.error));
    }
    var content := FileText(input, packageJson);
    files := ApplyFileOperations(input.order, files.value, [Write(PACKAGE_JSON, content)], input.runId);
    if files.Err? {
      return Err(BadOperations(files.error));
    }
    return Ok(Candidate(files.value, packageJson, g.message));
  }

  method RepairTree(input: Input, current: Candidate, g: Generation) returns (result: Result<Candidate, Outcome>)
    ensures result == Repaired(input, current, g)
  {
    var packageJson := NextPackageJson(current, g);
    var dependencyChanged := input.printer.compact(packageJson) != input.printer.compact(current.packageJson);
    var files := ApplyFileOperations(input.order, current.files, g.operations, input.runId);
    if files.Err? {
      return Err(BadOperations(files.error));
    }
    if !dependencyChanged && !FilesChanged(current.files, files.value) {
      return Err(NoEffectiveChanges);
    }
    var content := FileText(input, packageJson);
    files := ApplyFileOperations(input.order, files.value, [Write(PACKAGE_JSON, content)], input.runId);
    if files.Err? {
      return Err(BadOperations(files.error));
    }
    return Ok(Candidate(files.value, packageJson, g.message));
  }

  // ----- the loop -----

  /** A property of candidates that the first generation has and every repair keeps. */
  ghost predicate Kept(input: Input, property: Candidate -> bool) {
    && (forall g :: Generated(input, g).Ok? ==> property(Generated(input, g).value))
    && (forall c, g :: property(c) && Repaired(input, c, g).Ok? ==> property(Repaired(input, c, g).value))
  }

  /** The first generation, for a property it has. */
  method GenerateKeeping(input: Input, ghost property: Candidate -> bool, g: Generation)
    returns (result: Result<Candidate, Outcome>)
    requires Kept(input, property)
    ensures result.Ok? ==> property(result.value)
    ensures result.Err? ==> Refusal(result.error)
  {
    result := GenerateTree(input, g);
  }

  /** A repair, for a property that repairs keep. */
  method RepairKeeping(input: Input, ghost property: Candidate -> bool, current: Candidate, g: Generation)
    returns (result: Result<Candidate, Outcome>)
    requires Kept(input, property) && property(current)
    ensures result.Ok? ==> property(result.value)
    ensures result.Err? ==> Refusal(result.error)
  {
    result := RepairTree(input, current, g);
  }

  predicate Refusal(o: Outcome) {
    o in {NoEffectiveChanges, ModelFailed, ListenerThrew} || o.BadOperations?
  }

  /** One event: it drives the status from `status` to `next`. */
  method Emit(input: Input, before: seq<Event>, e: Event, ghost status: BranchRuns.Status,
              ghost next: BranchRuns.Status)
    returns (accepted: bool, events: seq<Event>)
    requires DriveAll(BranchRuns.Running, before) == Some(status) && Drive(status, e) == Some(next)
    ensures events == before + [e] && DriveAll(BranchRuns.Running, events) == Some(next)
  {
    DriveOneMore(before, e);
    events := before + [e];
    accepted := input.listener(events);
  }

  /** Reports the changed files; these events drive no transition. */
  method ReportChanges(input: Input, ops: seq<Operation>, repairAttempt: nat, before: seq<Event>)
    returns (accepted: bool, events: seq<Event>)
    ensures DriveAll(BranchRuns.Running, events) == DriveAll(BranchRuns.Running, before)
    ensures before <= events
  {
    events := before;
    for i := 0 to |ops|
      invariant DriveAll(BranchRuns.Running, events) == DriveAll(BranchRuns.Running, before) && before <= events
    {
      DriveOneMore(events, FileChanged(ops[i].path, repairAttempt));
      events := events + [FileChanged(ops[i].path, repairAttempt)];
      if !input.listener(events) {
        return false, events;
      }
    }
    accepted := true;
  }

  /** The first generation: a candidate with the property, or the reason there is none. */
  method RunAgentGeneration(input: Input, ghost property: Candidate -> bool)
    returns (result: Result<Candidate, Outcome>, events: seq<Event>)
    requires Kept(input, property)
    ensures result.Ok? ==>
              property(result.value) && DriveAll(BranchRuns.Running, events) == Some(BranchRuns.Generating)
    ensures result.Err? ==> Refusal(result.error) && DriveAll(BranchRuns.Running, events).Some?
  {
    var accepted;
    accepted, events := Emit(input, [], PlanStarted, BranchRuns.Running, BranchRuns.Planning);
    if !accepted {
      return Err(ListenerThrew), events;
    }
    if !input.model.plans {
      return Err(ModelFailed), events;
    }
    accepted, events := Emit(input, events, PlanReady, BranchRuns.Planning, BranchRuns.Planning);
    if !accepted {
      return Err(ListenerThrew), events;
    }
    accepted, events := Emit(input, events, GenerationStep(0), BranchRuns.Planning, BranchRuns.Generating);
    if !accepted {
      return Err(ListenerThrew), events;
    }
    if input.model.generate == None {
      return Err(ModelFailed), events;
    }
    result := GenerateKeeping(input, property, input.model.generate.value);
    if result.Err? {
      return;
    }
    accepted, events := ReportChanges(input, input.model.generate.value.operations, 0, events);
    if !accepted {
      return Err(ListenerThrew), events;
    }
  }

  /** One repair of a failed validation, with its events. */
  method Repair(input: Input, ghost property: Candidate -> bool, attempt: nat, current: Candidate,
                validation: Validation, before: seq<Event>)
    returns (result: Result<Candidate, Outcome>, events: seq<Event>)
    requires Kept(input, property) && property(current)
    requires DriveAll(BranchRuns.Running, before) == Some(BranchRuns.Validating)
    ensures result.Ok? ==>
              property(result.value) && DriveAll(BranchRuns.Running, events) == Some(BranchRuns.Generating)
    ensures result.Err? ==> Refusal(result.error) && DriveAll(BranchRuns.Running, events).Some?
  {
    var accepted;
    accepted, events := Emit(input, before, RepairStarted(attempt), BranchRuns.Validating, BranchRuns.Repairing);
    if !accepted {
      return Err(ListenerThrew), events;
    }
    var answer := input.model.repair(attempt, current.files, validation);
    if answer == None {
      return Err(ModelFailed), events;
    }
    result := RepairKeeping(input, property, current, answer.value);
    if result.Err? {
      return;
    }
    accepted, events := Emit(input, events, GenerationStep(attempt), BranchRuns.Repairing, BranchRuns.Generating);
    if !accepted {
      return Err(ListenerThrew), events;
    }
    accepted, events := ReportChanges(input, answer.value.operations, attempt, events);
    if !accepted {
      return Err(ListenerThrew), events;
    }
  }

  /** The last call, if there is one, failed in a way not seen before, and was repaired. */
  ghost predicate LastWasRepaired(calls: seq<Call>) {
    calls != [] ==> (
      && Repairable(calls[|calls| - 1].answer)
      && !FingerprintSeen(calls[..|calls| - 1], calls[|calls| - 1].answer.value.fingerprint))
  }

  lemma OneMoreCall(input: Input, calls: seq<Call>, call: Call)
    requires CallsValid(input, calls) && |calls| <= input.maxRepairAttempts && LastWasRepaired(calls)
    requires call.attempt == |calls| && call.answer == input.validator(|calls|, call.candidate.files)
    ensures CallsValid(input, calls + [call])
  {
    var all := calls + [call];
    forall i, j | 0 <= i < j < |all| - 1 ensures FailsAlike(all[i], all[j]) == false {
      if j == |calls| - 1 {
        assert calls[..|calls| - 1][i] == calls[i];
      }
    }
  }

  lemma SeenAfter(calls: seq<Call>, call: Call, seen: set<string>)
    requires call.answer.Some? && forall d :: d in seen <==> FingerprintSeen(calls, d)
    ensures forall d :: d in seen + {call.answer.value.fingerprint} <==> FingerprintSeen(calls + [call], d)
  {
    var all := calls + [call];
    forall d ensures d in seen + {call.answer.value.fingerprint} <==> FingerprintSeen(all, d) {
      if FingerprintSeen(calls, d) {
        var i :| 0 <= i < |calls| && calls[i].answer.Some? && calls[i].answer.value.fingerprint == d;
        assert all[i] == calls[i];
      }
      if d == call.answer.value.fingerprint {
        assert all[|calls|] == call;
      }
    }
  }

  /** What the loop does with an answer: stop with an outcome, or go on to a repair. */
  method Judge(input: Input, current: Candidate, validation: Validation, repairAttempts: nat, seen: set<string>,
               before: seq<Event>, ghost earlier: seq<Call>)
    returns (stop: Option<Outcome>, events: seq<Event>)
    requires |earlier| == repairAttempts && repairAttempts <= input.maxRepairAttempts
    requires forall d :: d in seen <==> FingerprintSeen(earlier, d)
    requires DriveAll(BranchRuns.Running, before) == Some(BranchRuns.Validating)
    ensures DriveAll(BranchRuns.Running, events) == Some(BranchRuns.Validating)
    ensures stop.Some? ==>
              OutcomeValid(input, stop.value, events, earlier + [Call(repairAttempts, current, Some(validation))])
    ensures stop == None ==>
              Repairable(Some(validation)) && validation.fingerprint !in seen
                  && repairAttempts < input.maxRepairAttempts
  {
    ghost var calls := earlier + [Call(repairAttempts, current, Some(validation))];
    assert calls[..|calls| - 1] == earlier && calls[repairAttempts] == Call(repairAttempts, current, Some(validation));
    var passed := validation.verdict == Passed;
    var event := if passed && !validation.simulated then ValidationPassed else ValidationFailed;
    var accepted;
    accepted, events := Emit(input, before, event, BranchRuns.Validating, BranchRuns.Validating);
    if !accepted {
      stop := Some(ListenerThrew);
    } else if passed {
      stop := Some(if validation.simulated then NotVerified else Verified(current, repairAttempts));
    } else if validation.category == Some(InfraError) {
      stop := Some(Infrastructure(current));
    } else if validation.fingerprint in seen {
      stop := Some(RepeatedFailure);
    } else if repairAttempts >= input.maxRepairAttempts {
      stop := Some(FailedValidation);
    } else {
      stop := None;
    }
  }

  /** What holds of the calls before a candidate is shown: the next call may be made. */
  ghost predicate Ready(input: Input, property: Candidate -> bool, calls: seq<Call>, seen: set<string>) {
    && CallsValid(input, calls) && LastWasRepaired(calls) && |calls| <= input.maxRepairAttempts
    && (forall i | 0 <= i < |calls| :: property(calls[i].candidate))
    && (forall d :: d in seen <==> FingerprintSeen(calls, d))
  }

  ghost predicate CallsKeep(input: Input, property: Candidate -> bool, calls: seq<Call>) {
    CallsValid(input, calls) && forall i | 0 <= i < |calls| :: property(calls[i].candidate)
  }

  lemma CallIsKept(input: Input, property: Candidate -> bool, calls: seq<Call>, seen: set<string>, call: Call)
    requires Ready(input, property, calls, seen) && property(call.candidate)
    requires call.attempt == |calls| && call.answer == input.validator(|calls|, call.candidate.files)
    ensures CallsKeep(input, property, calls + [call])
  {
    OneMoreCall(input, calls, call);
  }

  lemma ReadyAgain(input: Input, property: Candidate -> bool, calls: seq<Call>, seen: set<string>, call: Call)
    requires Ready(input, property, calls, seen) && CallsKeep(input, property, calls + [call])
    requires Repairable(call.answer) && call.answer.value.fingerprint !in seen && |calls| < input.maxRepairAttempts
    ensures Ready(input, property, calls + [call], seen + {call.answer.value.fingerprint})
  {
    SeenAfter(calls, call, seen);
    assert (calls + [call])[..|calls|] == calls;
  }

  /** One turn of the loop up to the verdict: the validator is called, and the loop stops or may repair. */
  method Validate(input: Input, ghost property: Candidate -> bool, current: Candidate, before: seq<Event>,
                  callsBefore: seq<Call>, seen: set<string>)
    returns (stop: Option<Outcome>, events: seq<Event>, calls: seq<Call>, answer: Option<Validation>)
    requires Ready(input, property, callsBefore, seen) && property(current)
    requires DriveAll(BranchRuns.Running, before) == Some(BranchRuns.Generating)
    ensures DriveAll(BranchRuns.Running, events) == Some(BranchRuns.Validating)
    ensures CallsKeep(input, property, calls)
    ensures stop.Some? ==> OutcomeValid(input, stop.value, events, calls)
    ensures stop == None ==>
              && answer.Some? && |calls| == |callsBefore| + 1
              && Ready(input, property, calls, seen + {answer.value.fingerprint})
  {
    var repairAttempts := |callsBefore|;
    calls, answer := callsBefore, None;
    var accepted;
    accepted, events := Emit(input, before, ValidationStarted(repairAttempts), BranchRuns.Generating,
                             BranchRuns.Validating);
    if !accepted {
      return Some(ListenerThrew), events, calls, None;
    }
    answer := input.validator(repairAttempts, current.files);
    var call := Call(repairAttempts, current, answer);
    CallIsKept(input, property, callsBefore, seen, call);
    calls := callsBefore + [call];
    if answer == None {
      return Some(ValidatorThrew), events, calls, answer;
    }
    stop, events := Judge(input, current, answer.value, repairAttempts, seen, events, callsBefore);
    if stop == None {
      ReadyAgain(input, property, callsBefore, seen, call);
    }
  }

  /**
   The whole loop. Whatever the model, the validator and the listener do, it ends, having called the
   validator at most once more than repairs are allowed, with attempts 0, 1, 2, …; no two repaired
   failures share a fingerprint; its events drive only transitions the status table allows; and
   what the first generation has and repairs keep holds of every candidate it shows.
   */
  method RunAgentGenerationWithValidation(input: Input, ghost property: Candidate -> bool)
    returns (outcome: Outcome, events: seq<Event>, calls: seq<Call>)
    requires Kept(input, property)
    ensures CallsKeep(input, property, calls)
    ensures OutcomeValid(input, outcome, events, calls)
    ensures DriveAll(BranchRuns.Running, events).Some?
  {
    calls := [];
    var generated;
    generated, events := RunAgentGeneration(input, property);
    if generated.Err? {
      return generated.error, events, calls;
    }
    var current := generated.value;
    var seenDiagnostics: set<string> := {};
    while true
      invariant Ready(input, property, calls, seenDiagnostics) && property(current)
      invariant DriveAll(BranchRuns.Running, events) == Some(BranchRuns.Generating)
      decreases input.maxRepairAttempts + 1 - |calls|
    {
      var stop, answer;
      stop, events, calls, answer := Validate(input, property, current, events, calls, seenDiagnostics);
      if stop.Some? {
        return stop.value, events, calls;
      }
      seenDiagnostics := seenDiagnostics + {answer.value.fingerprint};
      var repaired;
      repaired, events := Repair(input, property, |calls|, current, answer.value, events);
      if repaired.Err? {
        return repaired.error, events, calls;
      }
      current := repaired.value;
    }
  }

  lemma PresentableIsKept(input: Input)
    requires Permutes(input.order)
    ensures Kept(input, c => Presentable(input, c))
  {
    forall g | Generated(input, g).Ok? ensures Presentable(input, Generated(input, g).value) {
      GeneratedIsPresentable(input, g);
    }
    forall c, g | Presentable(input, c) && Repaired(input, c, g).Ok?
      ensures Presentable(input, Repaired(input, c, g).value)
    {
      RepairedIsPresentable(input, c, g);
    }
  }

  /** Every tree that is validated or returned is presentable, whatever operations the model returned. */
  method GenerateValidated(input: Input) returns (outcome: Outcome, calls: seq<Call>)
    requires Permutes(input.order)
    ensures forall i | 0 <= i < |calls| :: Presentable(input, calls[i].candidate)
    ensures outcome.Verified? ==> Presentable(input, outcome.candidate)
    ensures outcome.Infrastructure? ==> Presentable(input, outcome.candidate)
  {
    PresentableIsKept(input);
    var events;
    outcome, events, calls := RunAgentGenerationWithValidation(input, c => Presentable(input, c));
  }
}
