/**
 Terminating leases through the provider: any number of terminate() calls, failed-provisioning
 cleanups and reconcilers, interleaved and crashing anywhere.
 */
module Termination {
  import opened Results
  import opened Leases
  import opened Runs
  import Reconciler

  /** Where a worker stands; every value it carries is what it read, possibly long ago. */
  datatype Pc =
    | Found(i: nat, seen: State)                    // terminate() read the lease
    | Missed(i: nat)                                // its claim matched nothing; it reads again
    | Claimed(i: nat, held: Option<nat>)            // it saw the lease as terminating
    | Destroying(i: nat, ext: nat)                  // its destroy was not pending
    | Gone(i: nat, ext: nat)                        // inspect said missing
    | Resuming(i: nat, ext: nat)                    // resumeProvisioning() read the lease
    | CleaningUp(i: nat, ext: nat)                  // it failed, and asked for terminating
    | CleanedUp(i: nat, ext: nat)                   // the destroy was accepted and not pending
    | Suspecting(i: nat, provider: string, ext: nat) // a reconciler read the lease in its batch
    | Missing(i: nat, provider: string, ext: nat)   // its inspect said missing

  /**
   `alive` are the provider's resources below `next`, ids being given out once. The rest is a
   record for the proof: what was ever bound to which lease, what was ever cleared, and which
   leases terminate() and the cleanup moved to terminated.
   */
  datatype Site = Site(
    leases: seq<Lease>, alive: set<nat>, next: nat, workers: map<nat, Pc>,
    bound: set<(nat, nat)>, cleared: set<nat>, ended: set<nat>, swept: set<nat>)

  datatype Step =
    | ReserveLease(r: Reservation, expiresAt: int)
    | MoveLease(i: nat, from: State, to: State)         // any other transition, but not to terminated
    | CreateResource
    | LoseResource(ext: nat)                        // destroyed by anyone, or gone on its own
    | BindResource(i: nat, ext: nat)
    | Read(w: nat, i: nat)
    | ClaimLease(w: nat)
    | ReadAgain(w: nat)
    | Destroy(w: nat, destroyed: bool)
    | Inspect(w: nat)
    | Finish(w: nat)
    | Resume(w: nat, i: nat)
    | Fail(w: nat)
    | CleanUp(w: nat)
    | Sweep(w: nat)
    | ReadBatch(w: nat, i: nat)
    | FindMissing(w: nat)
    | ClearMissing(w: nat)
    | Crash(w: nat)

  predicate At(s: Site, w: nat, i: nat) {
    w !in s.workers && i < |s.leases|
  }

  predicate Enabled(s: Site, step: Step) {
    match step
    case ReserveLease(r, e) => true
    case MoveLease(i, from, to) => to != Terminated
    case CreateResource => true
    case LoseResource(ext) => true
    case BindResource(i, ext) => ext < s.next
    case Read(w, i) => At(s, w, i)
    case ClaimLease(w) => w in s.workers && s.workers[w].Found?
    case ReadAgain(w) => w in s.workers && s.workers[w].Missed?
    case Destroy(w, d) => w in s.workers && s.workers[w].Claimed? && s.workers[w].held.Some?
    case Inspect(w) => w in s.workers && s.workers[w].Destroying? && s.workers[w].ext !in s.alive
    case Finish(w) =>
      w in s.workers && (s.workers[w].Gone? || (s.workers[w].Claimed? && s.workers[w].held == None))
    case Resume(w, i) => At(s, w, i) && s.leases[i].state == Provisioning && s.leases[i].externalId.Some?
    case Fail(w) => w in s.workers && s.workers[w].Resuming?
    case CleanUp(w) => w in s.workers && s.workers[w].CleaningUp?
    case Sweep(w) => w in s.workers && s.workers[w].CleanedUp?
    case ReadBatch(w, i) => At(s, w, i) && s.leases[i].externalId.Some?
    case FindMissing(w) => w in s.workers && s.workers[w].Suspecting? && s.workers[w].ext !in s.alive
    case ClearMissing(w) => w in s.workers && s.workers[w].Missing?
    case Crash(w) => w in s.workers
  }

  function ProviderOf(s: Site, i: nat): string {
    if i < |s.leases| then s.leases[i].reservation.provider else ""
  }

  function WriteOf(s: Site, step: Step): Option<LeaseWrite>
    requires Enabled(s, step)
  {
    match step
    case ReserveLease(r, e) => Some(LeaseWrite(0, Reserve(r, e)))
    case MoveLease(i, from, to) => Some(LeaseWrite(i, Move([from], to)))
    case BindResource(i, ext) => Some(LeaseWrite(i, BindTo(ProviderOf(s, i), ext)))
    case ClaimLease(w) => Some(LeaseWrite(s.workers[w].i, Move([s.workers[w].seen], Terminating)))
    case Finish(w) => Some(LeaseWrite(s.workers[w].i, Move([Terminating], Terminated)))
    case Fail(w) => Some(LeaseWrite(s.workers[w].i, Move([Provisioning], Terminating)))
    case Sweep(w) => Some(LeaseWrite(s.workers[w].i, Move([Terminating], Terminated)))
    case ClearMissing(w) => Some(LeaseWrite(s.workers[w].i, ClearFrom(s.workers[w].provider, s.workers[w].ext)))
    case _ => None
  }

  function Wrote(s: Site, step: Step): Written
    requires Enabled(s, step)
  {
    match WriteOf(s, step)
    case None => Written(NotMatched, s.leases)
    case Some(x) => Apply(s.leases, x.i, x.op)
  }

  /** What a step does to the provider's resources. */
  function AliveAfter(s: Site, step: Step): set<nat>
    requires Enabled(s, step)
  {
    match step
    case CreateResource => s.alive + {s.next}
    case LoseResource(ext) => s.alive - {ext}
    case Destroy(w, destroyed) => if destroyed then s.alive - {s.workers[w].held.value} else s.alive
    case CleanUp(w) => s.alive - {s.workers[w].ext}
    case _ => s.alive
  }

  /** The record of a write that went through. */
  function Recorded(s: Site, step: Step): Site
    requires Enabled(s, step)
  {
    match step
    case BindResource(i, ext) => s.(bound := s.bound + {(i, ext)})
    case ClearMissing(w) => s.(cleared := s.cleared + {s.workers[w].i})
    case Finish(w) => s.(ended := s.ended + {s.workers[w].i})
    case Sweep(w) => s.(swept := s.swept + {s.workers[w].i})
    case _ => s
  }

  /** terminate() goes on with a lease it saw as terminating, and gives up on any other. */
  function Continue(leases: seq<Lease>, i: nat): Option<Pc> {
    if i < |leases| && leases[i].state == Terminating then Some(Claimed(i, leases[i].externalId)) else None
  }

  /** Where a step leaves its worker; nowhere when it is done. */
  function Moved(s: Site, step: Step): Option<Pc>
    requires Enabled(s, step)
  {
    match step
    case Read(w, i) =>
      if s.leases[i].state in {Terminating, Terminated} then Continue(s.leases, i)
      else Some(Found(i, s.leases[i].state))
    case ClaimLease(w) =>
      var written := Wrote(s, step);
      (match written.update
       case Changed(_) => Continue(written.leases, s.workers[w].i)
       case NotMatched => Some(Missed(s.workers[w].i))
       case _ => None)
    case ReadAgain(w) => Continue(s.leases, s.workers[w].i)
    case Destroy(w, _) => Some(Destroying(s.workers[w].i, s.workers[w].held.value))
    case Inspect(w) => Some(Gone(s.workers[w].i, s.workers[w].ext))
    case Resume(w, i) => Some(Resuming(i, s.leases[i].externalId.value))
    case Fail(w) => Some(CleaningUp(s.workers[w].i, s.workers[w].ext))
    case CleanUp(w) => Some(CleanedUp(s.workers[w].i, s.workers[w].ext))
    case ReadBatch(w, i) => Some(Suspecting(i, s.leases[i].reservation.provider, s.leases[i].externalId.value))
    case FindMissing(w) => Some(Missing(s.workers[w].i, s.workers[w].provider, s.workers[w].ext))
    case _ => None
  }

  /** The worker a step is for; steps of others have none. */
  function Mover(step: Step): Option<nat> {
    match step
    case ReserveLease(_, _) => None
    case MoveLease(_, _, _) => None
    case CreateResource => None
    case LoseResource(_) => None
    case BindResource(_, _) => None
    case _ => Some(step.w)
  }

  function MoveTo(workers: map<nat, Pc>, w: nat, pc: Option<Pc>): map<nat, Pc> {
    match pc
    case None => workers - {w}
    case Some(x) => workers[w := x]
  }

  function Next(s: Site, step: Step): Site
    requires Enabled(s, step)
  {
    var record := if Wrote(s, step).update.Changed? then Recorded(s, step) else s;
    record.(leases := Wrote(s, step).leases, alive := AliveAfter(s, step),
            next := if step.CreateResource? then s.next + 1 else s.next,
            workers := if Mover(step).Some? then MoveTo(s.workers, step.w, Moved(s, step)) else s.workers)
  }

  // ----- the invariant -----

  predicate Settled(s: Site, i: nat) {
    i < |s.leases| && s.leases[i].state in {Terminating, Terminated}
  }

  /** The cleanup's worker knows what is bound, unless that was cleared. */
  predicate Remembers(s: Site, i: nat, ext: nat) {
    i < |s.leases| && (i, ext) in s.bound && (i !in s.cleared ==> s.leases[i].externalId == Some(ext))
  }

  ghost predicate PcValid(s: Site, pc: Pc) {
    match pc
    case Found(i, seen) => true
    case Missed(i) => true
    case Claimed(i, held) => Settled(s, i) && s.leases[i].externalId == held
    case Destroying(i, ext) => Settled(s, i) && s.leases[i].externalId == Some(ext)
    case Gone(i, ext) => Settled(s, i) && s.leases[i].externalId == Some(ext) && ext !in s.alive
    case Resuming(i, ext) => Remembers(s, i, ext)
    case CleaningUp(i, ext) => Remembers(s, i, ext)
    case CleanedUp(i, ext) => Remembers(s, i, ext) && ext !in s.alive
    case Suspecting(i, provider, ext) => ext < s.next
    case Missing(i, provider, ext) => ext !in s.alive && ext < s.next
  }

  /** Everything ever bound to lease `i` is gone, except perhaps what is bound to it now. */
  ghost predicate OldResourcesGone(s: Site, i: nat) {
    i < |s.leases| && forall ext | (i, ext) in s.bound && ext in s.alive :: s.leases[i].externalId == Some(ext)
  }

  /** Every resource that was ever bound to lease `i` is gone. */
  ghost predicate AllResourcesGone(s: Site, i: nat) {
    forall ext | (i, ext) in s.bound :: ext !in s.alive
  }

  ghost predicate ResourcesValid(s: Site) {
    && (forall ext | ext in s.alive :: ext < s.next)
    && (forall b | b in s.bound :: b.0 < |s.leases| && b.1 < s.next)
    && (forall i | 0 <= i < |s.leases| :: OldResourcesGone(s, i))
    && (forall i | 0 <= i < |s.leases| :: s.leases[i].externalId.Some? ==> (i, s.leases[i].externalId.value) in s.bound)
  }

  ghost predicate EndsValid(s: Site) {
    && (forall i | i in s.ended :: i < |s.leases| && s.leases[i].state == Terminated && AllResourcesGone(s, i))
    && (forall i | i in s.swept ::
          i < |s.leases| && s.leases[i].state == Terminated && (i !in s.cleared ==> AllResourcesGone(s, i)))
  }

  ghost predicate Inv(s: Site) {
    && ResourcesValid(s)
    && (forall w | w in s.workers :: PcValid(s, s.workers[w]))
    && EndsValid(s)
  }

  /** What a step may change without disturbing anything that is settled. */
  ghost predicate Grows(s: Site, t: Site) {
    && Evolves(s.leases, t.leases)
    && s.next <= t.next && (forall ext | ext in t.alive :: ext in s.alive || ext >= s.next)
    && s.bound <= t.bound && s.cleared <= t.cleared
    && (forall i | 0 <= i < |s.leases| && i !in t.cleared && s.leases[i].externalId.Some? ::
          t.leases[i].externalId == s.leases[i].externalId)
    && (forall b | b in t.bound && b !in s.bound :: b.0 < |s.leases| && s.leases[b.0].state == Provisioning)
  }

  lemma PcStaysValid(s: Site, t: Site, pc: Pc)
    requires Inv(s) && Grows(s, t) && PcValid(s, pc)
    ensures PcValid(t, pc)
  {
    if !pc.Missing? && pc.i < |s.leases| {
      assert Successor(s.leases[pc.i], t.leases[pc.i]);
    }
  }

  lemma BindOnlyOnce(leases: seq<Lease>, i: nat, op: Op, j: nat)
    requires j < |leases| && leases[j].externalId.Some? && !(op.ClearFrom? && j == i)
    ensures j < |Apply(leases, i, op).leases| && Apply(leases, i, op).leases[j].externalId == leases[j].externalId
  {
  }

  lemma BindNeedsProvisioning(leases: seq<Lease>, i: nat, provider: string, ext: nat)
    requires BindExternal(leases, i, provider, ext).update.Changed?
    ensures i < |leases| && leases[i].state == Provisioning
  {
  }

  /** What a step leaves of the record. */
  lemma RecordGrows(s: Site, step: Step)
    requires Enabled(s, step)
    ensures var t := Next(s, step);
            && s.bound <= t.bound && s.cleared <= t.cleared && s.next <= t.next
            && t.leases == Wrote(s, step).leases
            && (forall ext | ext in t.alive :: ext in s.alive || ext >= s.next)
            && (step.ClearMissing? && Wrote(s, step).update.Changed? ==> s.workers[step.w].i in t.cleared)
            && (!step.BindResource? ==> t.bound == s.bound)
  {
  }

  lemma BoundGrows(s: Site, step: Step)
    requires Enabled(s, step)
    ensures var t := Next(s, step);
            forall b | b in t.bound && b !in s.bound :: b.0 < |s.leases| && s.leases[b.0].state == Provisioning
  {
    if step.BindResource? && Wrote(s, step).update.Changed? {
      BindNeedsProvisioning(s.leases, step.i, ProviderOf(s, step.i), step.ext);
    } else {
      RecordGrows(s, step);
    }
  }

  /** The lease whose binding a step may clear. */
  lemma OnlyClearMissingClears(s: Site, step: Step)
    requires Enabled(s, step) && WriteOf(s, step).Some? && WriteOf(s, step).value.op.ClearFrom?
    ensures step.ClearMissing? && WriteOf(s, step).value.i == s.workers[step.w].i
  {
  }

  lemma UnchangedKeepsLeases(leases: seq<Lease>, i: nat, op: Op)
    requires !Apply(leases, i, op).update.Changed?
    ensures Apply(leases, i, op).leases == leases
  {
  }

  lemma BindingStays(s: Site, step: Step, j: nat)
    requires Enabled(s, step) && j < |s.leases| && s.leases[j].externalId.Some? && j !in Next(s, step).cleared
    ensures j < |Wrote(s, step).leases| && Wrote(s, step).leases[j].externalId == s.leases[j].externalId
  {
    if WriteOf(s, step).Some? {
      var x := WriteOf(s, step).value;
      if x.op.ClearFrom? && j == x.i {
        OnlyClearMissingClears(s, step);
        RecordGrows(s, step);
        UnchangedKeepsLeases(s.leases, x.i, x.op);
      } else {
        BindOnlyOnce(s.leases, x.i, x.op, j);
      }
    }
  }

  lemma WroteEvolves(s: Site, step: Step)
    requires Enabled(s, step)
    ensures Evolves(s.leases, Wrote(s, step).leases)
  {
    if WriteOf(s, step).Some? {
      WritesEvolve(s.leases, WriteOf(s, step).value.i, WriteOf(s, step).value.op);
    }
  }

  lemma StepGrows(s: Site, step: Step)
    requires Enabled(s, step)
    ensures Grows(s, Next(s, step))
  {
    var t := Next(s, step);
    WroteEvolves(s, step);
    RecordGrows(s, step);
    BoundGrows(s, step);
    forall j | 0 <= j < |s.leases| && j !in t.cleared && s.leases[j].externalId.Some?
      ensures t.leases[j].externalId == s.leases[j].externalId
    {
      BindingStays(s, step, j);
    }
  }

  /** Steps that bind and clear nothing leave every binding as it is. */
  ghost predicate SameBindings(before: seq<Lease>, after: seq<Lease>) {
    && |before| <= |after|
    && (forall i | 0 <= i < |before| :: after[i].externalId == before[i].externalId)
    && (forall i | |before| <= i < |after| :: after[i].externalId == None)
  }

  lemma OnlyBindAndClearChangeBindings(leases: seq<Lease>, i: nat, op: Op)
    requires !op.BindTo? && !op.ClearFrom?
    ensures SameBindings(leases, Apply(leases, i, op).leases)
  {
  }

  lemma WroteSameBindings(s: Site, step: Step)
    requires Enabled(s, step) && !step.BindResource? && !step.ClearMissing?
    ensures SameBindings(s.leases, Wrote(s, step).leases)
  {
    if WriteOf(s, step).Some? {
      OnlyBindAndClearChangeBindings(s.leases, WriteOf(s, step).value.i, WriteOf(s, step).value.op);
    }
  }

  lemma AliveStaysKnown(s: Site, step: Step)
    requires Enabled(s, step) && forall ext | ext in s.alive :: ext < s.next
    ensures forall ext | ext in Next(s, step).alive :: ext < Next(s, step).next
  {
  }

  lemma SameBindingsKeepResources(s: Site, t: Site)
    requires ResourcesValid(s) && SameBindings(s.leases, t.leases) && t.bound == s.bound && s.next <= t.next
    requires forall ext | ext in t.alive :: ext < t.next && (ext in s.alive || ext >= s.next)
    ensures ResourcesValid(t)
  {
    forall i | 0 <= i < |t.leases| ensures OldResourcesGone(t, i) {
      if i < |s.leases| {
        assert OldResourcesGone(s, i);
      }
    }
  }

  lemma BindKeepsResources(s: Site, step: Step)
    requires Enabled(s, step) && ResourcesValid(s) && step.BindResource?
    ensures ResourcesValid(Next(s, step))
  {
    var t := Next(s, step);
    forall i | 0 <= i < |t.leases| ensures OldResourcesGone(t, i) {
      assert OldResourcesGone(s, i);
    }
  }

  lemma ClearKeepsResources(s: Site, step: Step)
    requires Enabled(s, step) && ResourcesValid(s) && step.ClearMissing? && PcValid(s, s.workers[step.w])
    ensures ResourcesValid(Next(s, step))
  {
    var t := Next(s, step);
    forall i | 0 <= i < |t.leases| ensures OldResourcesGone(t, i) {
      assert OldResourcesGone(s, i);
    }
  }

  lemma StepKeepsResources(s: Site, step: Step)
    requires Inv(s) && Enabled(s, step)
    ensures ResourcesValid(Next(s, step))
  {
    if step.BindResource? {
      BindKeepsResources(s, step);
    } else if step.ClearMissing? {
      ClearKeepsResources(s, step);
    } else {
      WroteSameBindings(s, step);
      RecordGrows(s, step);
      AliveStaysKnown(s, step);
      SameBindingsKeepResources(s, Next(s, step));
    }
  }

  lemma EndedStays(s: Site, t: Site, i: nat)
    requires ResourcesValid(s) && Grows(s, t) && i < |s.leases| && s.leases[i].state == Terminated
    ensures t.leases[i].state == Terminated && (AllResourcesGone(s, i) ==> AllResourcesGone(t, i))
  {
    assert Successor(s.leases[i], t.leases[i]);
  }

  lemma OnlyEndingEnds(s: Site, step: Step, i: nat)
    requires Enabled(s, step)
    ensures i in Next(s, step).ended && i !in s.ended ==>
              step.Finish? && i == s.workers[step.w].i && Wrote(s, step).update.Changed?
    ensures i in Next(s, step).swept && i !in s.swept ==>
              step.Sweep? && i == s.workers[step.w].i && Wrote(s, step).update.Changed?
    ensures s.cleared <= Next(s, step).cleared
  {
  }

  lemma EndingTerminates(leases: seq<Lease>, i: nat)
    requires Transition(leases, i, [Terminating], Terminated).update.Changed?
    ensures i < |leases| && Transition(leases, i, [Terminating], Terminated).leases[i].state == Terminated
  {
  }

  lemma EndedIsValid(s: Site, step: Step, i: nat)
    requires Inv(s) && Enabled(s, step) && i in Next(s, step).ended
    ensures var t := Next(s, step); i < |t.leases| && t.leases[i].state == Terminated && AllResourcesGone(t, i)
  {
    if i in s.ended {
      StepGrows(s, step);
      EndedStays(s, Next(s, step), i);
    } else {
      OnlyEndingEnds(s, step, i);
      EndingTerminates(s.leases, i);
      FinishIsExact(s, step.w);
    }
  }

  lemma SweptIsValid(s: Site, step: Step, i: nat)
    requires Inv(s) && Enabled(s, step) && i in Next(s, step).swept
    ensures var t := Next(s, step);
            i < |t.leases| && t.leases[i].state == Terminated && (i !in t.cleared ==> AllResourcesGone(t, i))
  {
    OnlyEndingEnds(s, step, i);
    if i in s.swept {
      StepGrows(s, step);
      EndedStays(s, Next(s, step), i);
    } else {
      EndingTerminates(s.leases, i);
      SweepIsExact(s, step.w);
    }
  }

  lemma StepKeepsEnds(s: Site, step: Step)
    requires Inv(s) && Enabled(s, step)
    ensures EndsValid(Next(s, step))
  {
    var t := Next(s, step);
    forall i | i in t.ended ensures i < |t.leases| && t.leases[i].state == Terminated && AllResourcesGone(t, i) {
      EndedIsValid(s, step, i);
    }
    forall i | i in t.swept
      ensures i < |t.leases| && t.leases[i].state == Terminated && (i !in t.cleared ==> AllResourcesGone(t, i))
    {
      SweptIsValid(s, step, i);
    }
  }

  /** Whenever terminate() moves a lease to terminated, every resource ever bound to it is gone. */
  lemma FinishIsExact(s: Site, w: nat)
    requires Inv(s) && Enabled(s, Finish(w))
    ensures var i := s.workers[w].i; i < |s.leases| && AllResourcesGone(Next(s, Finish(w)), i)
  {
    assert PcValid(s, s.workers[w]);
    assert OldResourcesGone(s, s.workers[w].i);
  }

  /**
   The cleanup destroyed what it read earlier, so when it ends a lease everything ever bound is
   gone exactly when the lease is bound to nothing that lives; it is when the lease still has the
   resource that was read, or was never cleared.
   */
  lemma SweepIsExact(s: Site, w: nat)
    requires Inv(s) && Enabled(s, Sweep(w))
    ensures var i, t := s.workers[w].i, Next(s, Sweep(w));
            && i < |s.leases|
            && (AllResourcesGone(t, i) <==> !(s.leases[i].externalId.Some? && s.leases[i].externalId.value in s.alive))
            && (s.leases[i].externalId in {None, Some(s.workers[w].ext)} || i !in s.cleared ==> AllResourcesGone(t, i))
  {
    assert PcValid(s, s.workers[w]);
    assert OldResourcesGone(s, s.workers[w].i);
  }

  lemma WorkersMoveOne(s: Site, step: Step, w: nat)
    requires Enabled(s, step)
    ensures var t := Next(s, step);
            if Mover(step) == Some(w) then
              if Moved(s, step).Some? then w in t.workers && t.workers[w] == Moved(s, step).value else w !in t.workers
            else (w in t.workers <==> w in s.workers) && (w in s.workers ==> t.workers[w] == s.workers[w])
  {
  }

  lemma MoverIsValid(s: Site, step: Step)
    requires Enabled(s, step) && Mover(step).Some? && Moved(s, step).Some? && ResourcesValid(s)
    requires step.w in s.workers ==> PcValid(s, s.workers[step.w]) && PcValid(Next(s, step), s.workers[step.w])
    ensures PcValid(Next(s, step), Moved(s, step).value)
  {
  }

  lemma StepKeepsWorkers(s: Site, step: Step)
    requires Inv(s) && Enabled(s, step)
    ensures var t := Next(s, step); forall w | w in t.workers :: PcValid(t, t.workers[w])
  {
    var t := Next(s, step);
    StepGrows(s, step);
    forall w | w in t.workers ensures PcValid(t, t.workers[w]) {
      WorkersMoveOne(s, step, w);
      if w in s.workers {
        assert PcValid(s, s.workers[w]);
        PcStaysValid(s, t, s.workers[w]);
      }
      if Mover(step) == Some(w) {
        MoverIsValid(s, step);
      }
    }
  }

  lemma StepKeepsInv(s: Site, step: Step)
    requires Inv(s) && Enabled(s, step)
    ensures Inv(Next(s, step))
  {
    StepKeepsResources(s, step);
    StepKeepsWorkers(s, step);
    StepKeepsEnds(s, step);
  }

  // ----- whole runs -----

  const EMPTY_SITE := Site([], {}, 0, map[], {}, {}, {}, {})

  const PROTOCOL: Machine<Site, Step> :=
    Machine((s, x) => Enabled(s, x), (s, x) => if Enabled(s, x) then Next(s, x) else s)

  lemma {:induction false} RunKeepsInv(s: Site, steps: seq<Step>, t: Site)
    requires Inv(s) && Run(PROTOCOL, s, steps, t)
    ensures Inv(t)
    decreases |steps|
  {
    if steps != [] {
      StepKeepsInv(s, steps[0]);
      RunKeepsInv(Next(s, steps[0]), steps[1..], t);
    }
  }

  /**
   Termination is exact, after any run: a lease that terminate() ended stays terminated and has no
   living resource; so has one the cleanup ended, unless its binding was cleared.
   */
  lemma TerminatedMeansGone(steps: seq<Step>, t: Site, i: nat)
    requires Run(PROTOCOL, EMPTY_SITE, steps, t)
    ensures i in t.ended || (i in t.swept && i !in t.cleared) ==>
              && i < |t.leases| && t.leases[i].state == Terminated && AllResourcesGone(t, i)
              && (t.leases[i].externalId.Some? ==> t.leases[i].externalId.value !in t.alive)
  {
    RunKeepsInv(EMPTY_SITE, steps, t);
  }

  // ----- an uninterrupted terminate() is one of the runs -----

  lemma DestroysAndEnds(s: Site, w: nat, i: nat) returns (steps: seq<Step>, t: Site)
    requires w in s.workers && i < |s.leases|
    requires s.workers[w] == Claimed(i, s.leases[i].externalId) && s.leases[i].externalId.Some?
    ensures Run(PROTOCOL, s, steps, t) && t.workers == s.workers - {w}
    ensures t.leases == Transition(s.leases, i, [Terminating], Terminated).leases
  {
    var s1 := Next(s, Destroy(w, true));
    var s2 := Next(s1, Inspect(w));
    t := Next(s2, Finish(w));
    OneStep(PROTOCOL, s, Destroy(w, true), s1);
    OneMore(PROTOCOL, s, [Destroy(w, true)], s1, Inspect(w), s2);
    OneMore(PROTOCOL, s, [Destroy(w, true)] + [Inspect(w)], s2, Finish(w), t);
    steps := [Destroy(w, true)] + [Inspect(w)] + [Finish(w)];
  }

  /** The provider's part in the end of a lease: a destroy, and an inspection if that is not pending. */
  lemma EndsResource(s: Site, w: nat, i: nat, a: Reconciler.Answer, tally: Reconciler.Tally)
    returns (steps: seq<Step>, t: Site)
    requires w in s.workers && i < |s.leases| && s.leases[i].state == Terminating
    requires s.workers[w] == Claimed(i, s.leases[i].externalId) && s.leases[i].externalId.Some?
    ensures Run(PROTOCOL, s, steps, t) && t.workers == s.workers - {w}
    ensures t.leases == Reconciler.EndResource(s.leases, i, a, tally).leases
  {
    if !(a.configured && a.reachable) || a.pending || !a.gone {
      t := Next(s, Crash(w));
      OneStep(PROTOCOL, s, Crash(w), t);
      steps := [Crash(w)];
    } else {
      steps, t := DestroysAndEnds(s, w, i);
    }
  }

  lemma EndsClaimed(s: Site, w: nat, i: nat, a: Reconciler.Answer, tally: Reconciler.Tally)
    returns (steps: seq<Step>, t: Site)
    requires w in s.workers && i < |s.leases| && s.leases[i].state == Terminating
    requires s.workers[w] == Claimed(i, s.leases[i].externalId)
    ensures Run(PROTOCOL, s, steps, t) && t.workers == s.workers - {w}
    ensures t.leases == Reconciler.EndResource(s.leases, i, a, tally).leases
  {
    if s.leases[i].externalId.Some? {
      steps, t := EndsResource(s, w, i, a, tally);
    } else {
      t := Next(s, Finish(w));
      OneStep(PROTOCOL, s, Finish(w), t);
      steps := [Finish(w)];
    }
  }

  /** A lease that is not yet terminating is claimed first. */
  lemma ClaimsAndEnds(s: Site, w: nat, i: nat, a: Reconciler.Answer, tally: Reconciler.Tally)
    returns (steps: seq<Step>, t: Site)
    requires w in s.workers && i < |s.leases| && s.leases[i].state !in {Terminating, Terminated}
    requires s.workers[w] == Found(i, s.leases[i].state)
    ensures Run(PROTOCOL, s, steps, t) && t.workers == s.workers - {w}
    ensures t.leases == Reconciler.Terminate(s.leases, i, a, tally).leases
  {
    var u := Next(s, ClaimLease(w));
    OneStep(PROTOCOL, s, ClaimLease(w), u);
    steps, t := [ClaimLease(w)], u;
    if Wrote(s, ClaimLease(w)).update.Changed? {
      var rest;
      rest, t := EndsClaimed(u, w, i, a, tally);
      RunsJoin(PROTOCOL, s, steps, u, rest, t);
      steps := steps + rest;
    }
  }

  /** A terminate() made without interruption is one of the runs, with the same leases stored. */
  lemma TerminateIsARun(s: Site, w: nat, i: nat, a: Reconciler.Answer, tally: Reconciler.Tally)
    returns (steps: seq<Step>, t: Site)
    requires w !in s.workers && i < |s.leases|
    ensures Run(PROTOCOL, s, steps, t) && t.workers == s.workers
    ensures t.leases == Reconciler.Terminate(s.leases, i, a, tally).leases
  {
    var u := Next(s, Read(w, i));
    OneStep(PROTOCOL, s, Read(w, i), u);
    steps, t := [Read(w, i)], u;
    if s.leases[i].state != Terminated {
      var rest;
      if s.leases[i].state == Terminating {
        rest, t := EndsClaimed(u, w, i, a, tally);
      } else {
        rest, t := ClaimsAndEnds(u, w, i, a, tally);
      }
      RunsJoin(PROTOCOL, s, steps, u, rest, t);
      steps := steps + rest;
      assert u.workers - {w} == s.workers;
    }
    assert t.workers == s.workers;
  }

  /** The cleanup from its destroy on: it ends the lease unless the destroy stays pending. */
  lemma CleansUp(s: Site, w: nat, i: nat, ext: nat) returns (steps: seq<Step>, t: Site)
    requires w in s.workers && s.workers[w] == CleaningUp(i, ext)
    ensures Run(PROTOCOL, s, steps, t) && t.workers == s.workers - {w}
    ensures t.leases == Transition(s.leases, i, [Terminating], Terminated).leases
  {
    var u := Next(s, CleanUp(w));
    t := Next(u, Sweep(w));
    OneStep(PROTOCOL, s, CleanUp(w), u);
    OneMore(PROTOCOL, s, [CleanUp(w)], u, Sweep(w), t);
    steps := [CleanUp(w)] + [Sweep(w)];
  }

  lemma ResumesAndFails(s: Site, w: nat, i: nat) returns (t: Site)
    requires w !in s.workers && i < |s.leases| && s.leases[i].state == Provisioning && s.leases[i].externalId.Some?
    ensures t.workers == s.workers[w := CleaningUp(i, s.leases[i].externalId.value)]
    ensures t.leases == Transition(s.leases, i, [Provisioning], Terminating).leases
    ensures Run(PROTOCOL, s, [Resume(w, i)] + [Fail(w)], t)
  {
    var u := Next(s, Resume(w, i));
    t := Next(u, Fail(w));
    OneStep(PROTOCOL, s, Resume(w, i), u);
    OneMore(PROTOCOL, s, [Resume(w, i)], u, Fail(w), t);
  }

  /** So is a resumption that fails and is cleaned up. */
  lemma CleanupIsARun(s: Site, w: nat, i: nat, a: Reconciler.Answer, tally: Reconciler.Tally)
    returns (steps: seq<Step>, t: Site)
    requires w !in s.workers && i < |s.leases| && !a.resumes
    requires s.leases[i].state == Provisioning && s.leases[i].externalId.Some?
    ensures Run(PROTOCOL, s, steps, t) && t.workers == s.workers
    ensures t.leases == Reconciler.Resume(s.leases, i, a, tally).leases
  {
    var s2 := ResumesAndFails(s, w, i);
    if Transition(s.leases, i, [Provisioning], Terminating).update.Changed? && !a.pending {
      steps, t := CleansUp(s2, w, i, s.leases[i].externalId.value);
    } else {
      t := Next(s2, Crash(w));
      OneStep(PROTOCOL, s2, Crash(w), t);
      steps := [Crash(w)];
    }
    RunsJoin(PROTOCOL, s, [Resume(w, i)] + [Fail(w)], s2, steps, t);
    steps := [Resume(w, i)] + [Fail(w)] + steps;
    assert s2.workers - {w} == s.workers;
  }

  // ----- the cleanup after a clear and a new binding -----

  lemma Then(before: seq<Step>, s: Site, step: Step, t: Site)
    requires Run(PROTOCOL, EMPTY_SITE, before, s) && Enabled(s, step) && Next(s, step) == t
    ensures Run(PROTOCOL, EMPTY_SITE, before + [step], t)
  {
    OneMore(PROTOCOL, EMPTY_SITE, before, s, step, t);
  }

  const DEMO := Reservation("w", "p", "b", Build, "key", "daytona", Profile(1.0, 1, 1), "")

  function DemoLease(state: State, ext: Option<nat>): Lease {
    NewLease(DEMO, 0).(state := state, externalId := ext)
  }

  lemma Provisioned() returns (steps: seq<Step>, t: Site)
    ensures Run(PROTOCOL, EMPTY_SITE, steps, t)
    ensures t == Site([DemoLease(Provisioning, None)], {0}, 1, map[], {}, {}, {}, {})
  {
    var s1 := EMPTY_SITE.(leases := [DemoLease(Reserved, None)]);
    assert CreateReserved([], DEMO, 0).leases == [DemoLease(Reserved, None)];
    Then([], EMPTY_SITE, ReserveLease(DEMO, 0), s1);
    var s2 := EMPTY_SITE.(leases := [DemoLease(Provisioning, None)]);
    Then([] + [ReserveLease(DEMO, 0)], s1, MoveLease(0, Reserved, Provisioning), s2);
    t := s2.(alive := {0}, next := 1);
    steps := [] + [ReserveLease(DEMO, 0)] + [MoveLease(0, Reserved, Provisioning)];
    Then(steps, s2, CreateResource, t);
    steps := steps + [CreateResource];
  }

  /** Lease 0 is bound to resource 0, which a worker has read and which then vanishes. */
  lemma BoundThenLost() returns (steps: seq<Step>, t: Site)
    ensures Run(PROTOCOL, EMPTY_SITE, steps, t)
    ensures t == Site([DemoLease(Provisioning, Some(0))], {}, 1, CLEANER, {(0, 0)}, {}, {}, {})
  {
    var before, s := Provisioned();
    var s1 := Site([DemoLease(Provisioning, Some(0))], {0}, 1, map[], {(0, 0)}, {}, {}, {});
    Then(before, s, BindResource(0, 0), s1);
    var s2 := s1.(workers := map[0 := Resuming(0, 0)]);
    Then(before + [BindResource(0, 0)], s1, Resume(0, 0), s2);
    t := s2.(alive := {});
    Then(before + [BindResource(0, 0)] + [Resume(0, 0)], s2, LoseResource(0), t);
    steps := before + [BindResource(0, 0)] + [Resume(0, 0)] + [LoseResource(0)];
  }

  const CLEANER: map<nat, Pc> := map[0 := Resuming(0, 0)]

  /** A reconciler that read the lease finds its resource missing. */
  lemma FoundMissing() returns (steps: seq<Step>, t: Site)
    ensures Run(PROTOCOL, EMPTY_SITE, steps, t)
    ensures t == Site([DemoLease(Provisioning, Some(0))], {}, 1, CLEANER[1 := Missing(0, "daytona", 0)],
                      {(0, 0)}, {}, {}, {})
  {
    var before, s := BoundThenLost();
    var s1 := s.(workers := CLEANER[1 := Suspecting(0, "daytona", 0)]);
    Then(before, s, ReadBatch(1, 0), s1);
    t := s.(workers := CLEANER[1 := Missing(0, "daytona", 0)]);
    assert s1.workers[1 := Missing(0, "daytona", 0)] == t.workers;
    steps := before + [ReadBatch(1, 0)];
    Then(steps, s1, FindMissing(1), t);
    steps := steps + [FindMissing(1)];
  }

  /** It clears the binding. */
  lemma BindingCleared() returns (steps: seq<Step>, t: Site)
    ensures Run(PROTOCOL, EMPTY_SITE, steps, t)
    ensures t == Site([DemoLease(Provisioning, None)], {}, 1, CLEANER, {(0, 0)}, {0}, {}, {})
  {
    var before, s := FoundMissing();
    t := Site([DemoLease(Provisioning, None)], {}, 1, CLEANER, {(0, 0)}, {0}, {}, {});
    assert s.workers - {1} == CLEANER;
    assert Wrote(s, ClearMissing(1)) == Written(Changed(0), [DemoLease(Provisioning, None)]);
    Then(before, s, ClearMissing(1), t);
    steps := before + [ClearMissing(1)];
  }

  /** Then it binds a new resource. */
  lemma ClearedThenRebound() returns (steps: seq<Step>, t: Site)
    ensures Run(PROTOCOL, EMPTY_SITE, steps, t)
    ensures t == Site([DemoLease(Provisioning, Some(1))], {1}, 2, CLEANER, {(0, 0), (0, 1)}, {0}, {}, {})
  {
    var before, s := BindingCleared();
    var s1 := s.(alive := {1}, next := 2);
    Then(before, s, CreateResource, s1);
    t := s1.(leases := [DemoLease(Provisioning, Some(1))], bound := {(0, 0), (0, 1)});
    Then(before + [CreateResource], s1, BindResource(0, 1), t);
    steps := before + [CreateResource] + [BindResource(0, 1)];
  }

  lemma FailedMeanwhile() returns (steps: seq<Step>, t: Site)
    ensures Run(PROTOCOL, EMPTY_SITE, steps, t)
    ensures t == Site([DemoLease(Terminating, Some(1))], {1}, 2, map[0 := CleaningUp(0, 0)],
                      {(0, 0), (0, 1)}, {0}, {}, {})
  {
    var before, s := ClearedThenRebound();
    t := s.(leases := [DemoLease(Terminating, Some(1))], workers := map[0 := CleaningUp(0, 0)]);
    assert Wrote(s, Fail(0)) == Written(Changed(0), [DemoLease(Terminating, Some(1))]);
    Then(before, s, Fail(0), t);
    steps := before + [Fail(0)];
  }

  /** The cleanup destroys what it read earlier. */
  lemma CleanedUpMeanwhile() returns (steps: seq<Step>, t: Site)
    ensures Run(PROTOCOL, EMPTY_SITE, steps, t)
    ensures t == Site([DemoLease(Terminating, Some(1))], {1}, 2, map[0 := CleanedUp(0, 0)],
                      {(0, 0), (0, 1)}, {0}, {}, {})
  {
    var before, s := FailedMeanwhile();
    t := s.(workers := map[0 := CleanedUp(0, 0)]);
    Then(before, s, CleanUp(0), t);
    steps := before + [CleanUp(0)];
  }

  /** It then ends the lease although the resource it is bound to lives. */
  lemma CleanupMayLeaveAResource() returns (steps: seq<Step>, t: Site)
    ensures Run(PROTOCOL, EMPTY_SITE, steps, t)
    ensures 0 in t.swept && t.leases == [DemoLease(Terminated, Some(1))] && 1 in t.alive
  {
    var before, s := CleanedUpMeanwhile();
    t := Site([DemoLease(Terminated, Some(1))], {1}, 2, map[], {(0, 0), (0, 1)}, {0}, {}, {0});
    assert Wrote(s, Sweep(0)) == Written(Changed(0), [DemoLease(Terminated, Some(1))]);
    Then(before, s, Sweep(0), t);
    steps := before + [Sweep(0)];
  }
}
