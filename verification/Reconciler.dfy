/**
 The sandbox reconciler: one pass over a batch of leases, and how fast passes end them all.
 */
module Reconciler {
  import opened Results
  import opened Leases
  import opened Runs
  import opened Sorting

  const BATCH_SIZE: nat := 100

  /** A resource the provider lists for a lease; `lingers` if its destroy stays pending. */
  datatype Listed = Listed(ext: nat, createdAt: int, lingers: bool)

  /** What the provider answers about one lease during a pass. */
  datatype Answer = Answer(
    configured: bool,
    reachable: bool,       // no call throws
    missing: bool,         // inspect finds no resource before anything is destroyed
    listed: seq<Listed>,   // what is there under the lease's key when none is bound
    created: nat,          // the resource that create makes
    untouched: bool,       // nobody writes the lease while the pass claims it
    resumes: bool,         // the resource becomes ready and takes the files
    pending: bool,         // destroy is still pending
    gone: bool)            // inspect finds no resource after a destroy

  datatype Tally = Tally(
    failedReservations: nat, resumed: nat, lost: nat, terminated: nat,
    destroyedDuplicates: nat, destroyedOrphans: nat, staleHeartbeats: nat, errors: nat)

  const NO_TALLY := Tally(0, 0, 0, 0, 0, 0, 0, 0)

  /** The leases after handling one of them, the counters, and whether an error was thrown. */
  datatype Handled = Handled(leases: seq<Lease>, tally: Tally)

  function Failing(leases: seq<Lease>, t: Tally): Handled {
    Handled(leases, t.(errors := t.errors + 1))
  }

  // ----- terminate(), uninterrupted -----

  function EndResource(leases: seq<Lease>, i: nat, a: Answer, t: Tally): Handled
    requires i < |leases| && leases[i].state == Terminating
  {
    if leases[i].externalId.Some? && !(a.configured && a.reachable) then Failing(leases, t)
    else if leases[i].externalId.Some? && (a.pending || !a.gone) then Handled(leases, t)
    else Handled(Transition(leases, i, [Terminating], Terminated).leases, t.(terminated := t.terminated + 1))
  }

  function Terminate(leases: seq<Lease>, i: nat, a: Answer, t: Tally): Handled
    requires i < |leases|
  {
    var state := leases[i].state;
    if state == Terminated then Handled(leases, t.(terminated := t.terminated + 1))
    else if state == Terminating then EndResource(leases, i, a, t)
    else
      var w := Transition(leases, i, [state], Terminating);
      if w.update.Changed? then EndResource(w.leases, i, a, t) else Failing(leases, t)
  }

  // ----- one lease -----

  /** resumeProvisioning(), with the cleanup it falls back to. */
  function Resume(leases: seq<Lease>, i: nat, a: Answer, t: Tally): Handled {
    if a.resumes then
      Handled(Transition(leases, i, [Provisioning], Ready).leases, t.(resumed := t.resumed + 1))
    else
      var w := Transition(leases, i, [Provisioning], Terminating);
      if w.update.Changed? && !a.pending then Failing(Transition(w.leases, i, [Terminating], Terminated).leases, t)
      else Failing(w.leases, t)
  }

  // ----- the resource a lease is bound to anew -----

  /** By age, then by id. */
  predicate Older(x: Listed, y: Listed) {
    x.createdAt < y.createdAt || (x.createdAt == y.createdAt && x.ext < y.ext)
  }

  function Retained(a: Answer): (ext: nat)
    ensures a.listed == [] ==> ext == a.created
  {
    if a.listed == [] then a.created else Sort(Older, a.listed)[0].ext
  }

  /** All that is listed but the one that is retained. */
  function Duplicates(a: Answer): seq<Listed> {
    if a.listed == [] then [] else Sort(Older, a.listed)[1..]
  }

  function CountGone(xs: seq<Listed>): (n: nat)
    ensures n <= |xs|
  {
    if xs == [] then 0 else CountGone(xs[..|xs| - 1]) + (if xs[|xs| - 1].lingers then 0 else 1)
  }

  /** The oldest listed resource is retained, every other one is destroyed, and none is both. */
  lemma OldestIsRetained(a: Answer)
    requires a.listed != []
    ensures var sorted := Sort(Older, a.listed);
            && sorted[0].ext == Retained(a) && multiset(a.listed) == multiset{sorted[0]} + multiset(Duplicates(a))
            && forall x | x in a.listed :: !Older(x, sorted[0])
  {
    var sorted := Sort(Older, a.listed);
    SortKeepsItems(Older, a.listed);
    assert |multiset(sorted)| == |multiset(a.listed)|;
    assert sorted == [sorted[0]] + sorted[1..];
    assert Weak(Older);
    SortIsOrdered(Older, a.listed);
    forall x | x in a.listed ensures !Older(x, sorted[0]) {
      SortKeepsMembers(Older, a.listed, x);
      var k :| 0 <= k < |sorted| && sorted[k] == x;
    }
  }

  function WithDuplicates(t: Tally, a: Answer): Tally {
    t.(destroyedDuplicates := t.destroyedDuplicates + CountGone(Duplicates(a)))
  }

  /** Only the pass whose claim finds the lease as it was read goes on. */
  function ClaimAndResume(leases: seq<Lease>, i: nat, now: int, a: Answer, t: Tally): Handled {
    var w := ProvisioningClaimed(leases, i, a.untouched, now);
    if w.update.Changed? then Resume(w.leases, i, a, t) else Handled(leases, t)
  }

  function ReconcileProvisioning(leases: seq<Lease>, i: nat, now: int, a: Answer, t: Tally): Handled
    requires i < |leases|
  {
    var l := leases[i];
    if !a.configured then Handled(leases, t)
    else if !a.reachable then Failing(leases, t)
    else if l.externalId.Some? && !a.missing then ClaimAndResume(leases, i, now, a, t)
    else
      var cleared := Cleared(leases, i);
      var bound := BindExternal(cleared, i, l.reservation.provider, Retained(a));
      if bound.update.Changed? then ClaimAndResume(bound.leases, i, now, a, WithDuplicates(t, a))
      else Failing(cleared, WithDuplicates(t, a))
  }

  function ReconcileLease(leases: seq<Lease>, i: nat, now: int, cutoff: int, a: Answer, t: Tally): Handled
    requires i < |leases|
  {
    var l := leases[i];
    var expired := l.expiresAt <= now;
    if l.state == Reserved && expired then
      Handled(Transition(leases, i, [Reserved], Failed).leases, t.(failedReservations := t.failedReservations + 1))
    else if expired && l.state in {Provisioning, Ready, Running, Lost, Failed} then Terminate(leases, i, a, t)
    else if l.state == Running && Stale(l, cutoff) then
      if l.externalId == None then Handled(leases, t)
      else
        var w := ClaimStale(leases, i, l.reservation.provider, l.externalId.value, cutoff);
        if w.update.Changed? then Terminate(w.leases, i, a, t.(staleHeartbeats := t.staleHeartbeats + 1))
        else if w.update == Duplicate then Failing(leases, t)
        else Handled(leases, t)
    else if l.state == Provisioning then ReconcileProvisioning(leases, i, now, a, t)
    else if l.state in {Ready, Running} then
      if l.externalId == None || !a.configured then Handled(leases, t)
      else if !a.reachable then Failing(leases, t)
      else if a.missing then Handled(Transition(leases, i, [l.state], Lost).leases, t.(lost := t.lost + 1))
      else Handled(leases, t)
    else if l.state in {Failed, Lost, Terminating} then Terminate(leases, i, a, t)
    else Handled(leases, t)
  }

  // ----- one pass -----

  /** The first `limit` leases from `from` on that are not terminated. */
  function Batch(leases: seq<Lease>, from: nat, limit: nat): (ids: seq<nat>)
    ensures forall n | 0 <= n < |ids| :: from <= ids[n] < |leases| && leases[ids[n]].state != Terminated
    ensures forall n, k | 0 <= n < k < |ids| :: ids[n] < ids[k]
    ensures |ids| <= limit
    decreases |leases| - from
  {
    if limit == 0 || from >= |leases| then []
    else if leases[from].state == Terminated then Batch(leases, from + 1, limit)
    else [from] + Batch(leases, from + 1, limit - 1)
  }

  type Answers = nat -> Answer

  function Pass(leases: seq<Lease>, ids: seq<nat>, now: int, cutoff: int, answers: Answers, t: Tally): Handled
    requires forall i | i in ids :: i < |leases|
    decreases |ids|
  {
    if ids == [] then Handled(leases, t)
    else
      var i := ids[0];
      assert i in ids && forall j | j in ids[1..] :: j in ids;
      var h := ReconcileLease(leases, i, now, cutoff, answers(i), t);
      HandlesOne(leases, i, now, cutoff, answers(i), t);
      Pass(h.leases, ids[1..], now, cutoff, answers, h.tally)
  }

  function Reconcile(leases: seq<Lease>, now: int, cutoff: int, answers: Answers): Handled {
    Pass(leases, Batch(leases, 0, BATCH_SIZE), now, cutoff, answers, NO_TALLY)
  }

  // ----- orphans -----

  /** A resource as a provider lists and inspects it; `owned` if its labels name an owner. */
  datatype Seen = Seen(provider: string, ext: nat, missing: bool, createdAt: int, owned: bool, lingers: bool)

  /** What one provider lists, in the end failing or not. */
  datatype Sighting = Sighting(seen: seq<Seen>, fails: bool)

  predicate IsBound(leases: seq<Lease>, provider: string, ext: nat) {
    exists j | 0 <= j < |leases| :: leases[j].reservation.provider == provider && leases[j].externalId == Some(ext)
  }

  /** Old enough, with an owner's labels, and bound to no lease. */
  predicate IsOrphan(leases: seq<Lease>, x: Seen, cutoff: int) {
    !x.missing && x.createdAt <= cutoff && x.owned && !IsBound(leases, x.provider, x.ext)
  }

  function Orphans(leases: seq<Lease>, seen: seq<Seen>, cutoff: int): seq<Seen> {
    if seen == [] then []
    else
      var last := seen[|seen| - 1];
      Orphans(leases, seen[..|seen| - 1], cutoff) + (if IsOrphan(leases, last, cutoff) then [last] else [])
  }

  /** The orphans are what is seen, labelled, old and unbound: no more and no less. */
  lemma {:induction false} OrphansAreUnbound(leases: seq<Lease>, seen: seq<Seen>, cutoff: int, x: Seen)
    ensures x in Orphans(leases, seen, cutoff) <==> x in seen && IsOrphan(leases, x, cutoff)
    decreases |seen|
  {
    if seen != [] {
      OrphansAreUnbound(leases, seen[..|seen| - 1], cutoff, x);
      assert seen == seen[..|seen| - 1] + [seen[|seen| - 1]];
    }
  }

  /** How many of these resources a destroy removed at once. */
  function CountDestroyed(xs: seq<Seen>): (n: nat)
    ensures n <= |xs|
  {
    if xs == [] then 0 else CountDestroyed(xs[..|xs| - 1]) + (if xs[|xs| - 1].lingers then 0 else 1)
  }

  lemma {:induction false} CountsAdd(xs: seq<Seen>, ys: seq<Seen>)
    ensures CountDestroyed(xs + ys) == CountDestroyed(xs) + CountDestroyed(ys)
    decreases |ys|
  {
    if ys == [] {
      assert xs + ys == xs;
    } else {
      assert (xs + ys)[..|xs| + |ys| - 1] == xs + ys[..|ys| - 1];
      CountsAdd(xs, ys[..|ys| - 1]);
    }
  }

  function CountFailing(xs: seq<Sighting>): nat {
    if xs == [] then 0 else CountFailing(xs[..|xs| - 1]) + (if xs[|xs| - 1].fails then 1 else 0)
  }

  /** The counters after destroying these resources, with so many providers failing. */
  function WithOrphans(t: Tally, destroyed: seq<Seen>, failing: nat): Tally {
    t.(destroyedOrphans := t.destroyedOrphans + CountDestroyed(destroyed), errors := t.errors + failing)
  }

  lemma OrphansJoin(t: Tally, a: seq<Seen>, m: nat, b: seq<Seen>, n: nat)
    ensures WithOrphans(WithOrphans(t, a, m), b, n) == WithOrphans(t, a + b, m + n)
  {
    CountsAdd(a, b);
  }

  lemma NoOrphans(t: Tally)
    ensures WithOrphans(t, [], 0) == t
  {
  }

  lemma OrphansOfOneMore(leases: seq<Lease>, seen: seq<Seen>, n: nat, cutoff: int)
    requires n < |seen|
    ensures Orphans(leases, seen[..n + 1], cutoff)
            == Orphans(leases, seen[..n], cutoff) + (if IsOrphan(leases, seen[n], cutoff) then [seen[n]] else [])
  {
    assert seen[..n + 1][..n] == seen[..n];
  }

  lemma AllOrphansOfOneMore(leases: seq<Lease>, xs: seq<Sighting>, n: nat, cutoff: int)
    requires n < |xs|
    ensures AllOrphans(leases, xs[..n + 1], cutoff)
            == AllOrphans(leases, xs[..n], cutoff) + Orphans(leases, FirstSeen(xs[n]), cutoff)
    ensures CountFailing(xs[..n + 1]) == CountFailing(xs[..n]) + (if xs[n].fails then 1 else 0)
  {
    assert xs[..n + 1][..n] == xs[..n];
  }

  function FirstSeen(x: Sighting): seq<Seen> {
    if |x.seen| <= BATCH_SIZE then x.seen else x.seen[..BATCH_SIZE]
  }

  /** The resources destroyed as orphans of some providers, one after the other. */
  function AllOrphans(leases: seq<Lease>, xs: seq<Sighting>, cutoff: int): seq<Seen> {
    if xs == [] then []
    else AllOrphans(leases, xs[..|xs| - 1], cutoff) + Orphans(leases, FirstSeen(xs[|xs| - 1]), cutoff)
  }

  // ----- ranks -----

  function Rank(s: State): nat {
    match s
    case Reserved => 6
    case Provisioning => 5
    case Ready => 4
    case Running => 3
    case Failed => 2
    case Lost => 2
    case Terminating => 1
    case Terminated => 0
  }

  lemma TransitionsLowerTheRank(from: State, to: State)
    requires to in Allowed(from)
    ensures Rank(to) < Rank(from)
  {
  }

  function TotalRank(leases: seq<Lease>): nat
    decreases |leases|
  {
    if leases == [] then 0 else TotalRank(leases[..|leases| - 1]) + Rank(leases[|leases| - 1].state)
  }

  /** Handling one lease touches no other, and leaves it where it was or lowers its rank. */
  ghost predicate OnlyLowers(before: seq<Lease>, i: nat, after: seq<Lease>) {
    && i < |before| == |after|
    && (forall j | 0 <= j < |before| && j != i :: after[j] == before[j])
    && after[i].reservation == before[i].reservation && after[i].expiresAt == before[i].expiresAt
    && (after[i].state == before[i].state || Rank(after[i].state) < Rank(before[i].state))
  }

  lemma TransitionLowers(leases: seq<Lease>, i: nat, from: seq<State>, to: State)
    requires i < |leases|
    ensures OnlyLowers(leases, i, Transition(leases, i, from, to).leases)
  {
    if Legal(from, to) && leases[i].state in from {
      TransitionsLowerTheRank(leases[i].state, to);
    }
  }

  lemma EndResourceLowers(leases: seq<Lease>, i: nat, a: Answer, t: Tally)
    requires i < |leases| && leases[i].state == Terminating
    ensures OnlyLowers(leases, i, EndResource(leases, i, a, t).leases)
  {
    TransitionLowers(leases, i, [Terminating], Terminated);
  }

  lemma TerminateLowers(leases: seq<Lease>, i: nat, a: Answer, t: Tally)
    requires i < |leases|
    ensures OnlyLowers(leases, i, Terminate(leases, i, a, t).leases)
  {
    var state := leases[i].state;
    if state == Terminating {
      EndResourceLowers(leases, i, a, t);
    } else if state != Terminated {
      TransitionLowers(leases, i, [state], Terminating);
      var w := Transition(leases, i, [state], Terminating);
      if w.update.Changed? {
        EndResourceLowers(w.leases, i, a, t);
      }
    }
  }

  lemma LowersTwice(a: seq<Lease>, i: nat, b: seq<Lease>, c: seq<Lease>)
    requires OnlyLowers(a, i, b) && OnlyLowers(b, i, c)
    ensures OnlyLowers(a, i, c)
  {
  }

  lemma ResumeLowers(leases: seq<Lease>, i: nat, a: Answer, t: Tally)
    requires i < |leases|
    ensures OnlyLowers(leases, i, Resume(leases, i, a, t).leases)
  {
    TransitionLowers(leases, i, [Provisioning], Ready);
    TransitionLowers(leases, i, [Provisioning], Terminating);
    var w := Transition(leases, i, [Provisioning], Terminating);
    TransitionLowers(w.leases, i, [Terminating], Terminated);
    LowersTwice(leases, i, w.leases, Transition(w.leases, i, [Terminating], Terminated).leases);
  }

  lemma BindingLowers(leases: seq<Lease>, i: nat, provider: string, ext: nat)
    requires i < |leases|
    ensures OnlyLowers(leases, i, ClearExternal(leases, i, provider, ext).leases)
    ensures OnlyLowers(leases, i, BindExternal(leases, i, provider, ext).leases)
  {
  }

  /** The leases after a binding that is missing was cleared. */
  function Cleared(leases: seq<Lease>, i: nat): seq<Lease>
    requires i < |leases|
  {
    var l := leases[i];
    if l.externalId == None then leases else ClearExternal(leases, i, l.reservation.provider, l.externalId.value).leases
  }

  lemma ClearingLowers(leases: seq<Lease>, i: nat)
    requires i < |leases|
    ensures OnlyLowers(leases, i, Cleared(leases, i))
  {
    if leases[i].externalId.Some? {
      BindingLowers(leases, i, leases[i].reservation.provider, leases[i].externalId.value);
    }
  }

  lemma ClaimingLowers(leases: seq<Lease>, i: nat, now: int, a: Answer, t: Tally)
    requires i < |leases|
    ensures OnlyLowers(leases, i, ClaimAndResume(leases, i, now, a, t).leases)
  {
    var w := ProvisioningClaimed(leases, i, a.untouched, now);
    if w.update.Changed? {
      assert OnlyLowers(leases, i, w.leases);
      ResumeLowers(w.leases, i, a, t);
      LowersTwice(leases, i, w.leases, Resume(w.leases, i, a, t).leases);
    }
  }

  lemma RebindingLowers(leases: seq<Lease>, i: nat, provider: string, ext: nat, now: int, a: Answer, t: Tally)
    requires i < |leases|
    ensures OnlyLowers(leases, i, ClaimAndResume(BindExternal(leases, i, provider, ext).leases, i, now, a, t).leases)
  {
    var bound := BindExternal(leases, i, provider, ext).leases;
    BindingLowers(leases, i, provider, ext);
    ClaimingLowers(bound, i, now, a, t);
    LowersTwice(leases, i, bound, ClaimAndResume(bound, i, now, a, t).leases);
  }

  lemma ProvisioningLowers(leases: seq<Lease>, i: nat, now: int, a: Answer, t: Tally)
    requires i < |leases|
    ensures OnlyLowers(leases, i, ReconcileProvisioning(leases, i, now, a, t).leases)
  {
    var l, cleared := leases[i], Cleared(leases, i);
    ClearingLowers(leases, i);
    if l.externalId.Some? && !a.missing {
      ClaimingLowers(leases, i, now, a, t);
    } else {
      var bound := BindExternal(cleared, i, l.reservation.provider, Retained(a)).leases;
      RebindingLowers(cleared, i, l.reservation.provider, Retained(a), now, a, WithDuplicates(t, a));
      LowersTwice(leases, i, cleared, ClaimAndResume(bound, i, now, a, WithDuplicates(t, a)).leases);
    }
  }

  lemma ClaimLowers(leases: seq<Lease>, i: nat, cutoff: int, a: Answer, t: Tally)
    requires i < |leases| && leases[i].externalId.Some?
    ensures var l := leases[i];
            var w := ClaimStale(leases, i, l.reservation.provider, l.externalId.value, cutoff);
            OnlyLowers(leases, i, w.leases) && OnlyLowers(leases, i, Terminate(w.leases, i, a, t).leases)
  {
    var l := leases[i];
    var w := ClaimStale(leases, i, l.reservation.provider, l.externalId.value, cutoff);
    assert OnlyLowers(leases, i, w.leases);
    TerminateLowers(w.leases, i, a, t);
    LowersTwice(leases, i, w.leases, Terminate(w.leases, i, a, t).leases);
  }

  lemma HandlesOne(leases: seq<Lease>, i: nat, now: int, cutoff: int, a: Answer, t: Tally)
    requires i < |leases|
    ensures OnlyLowers(leases, i, ReconcileLease(leases, i, now, cutoff, a, t).leases)
  {
    var l := leases[i];
    var expired := l.expiresAt <= now;
    if l.state == Reserved && expired {
      TransitionLowers(leases, i, [Reserved], Failed);
    } else if expired && l.state in {Provisioning, Ready, Running, Lost, Failed} {
      TerminateLowers(leases, i, a, t);
    } else if l.state == Running && Stale(l, cutoff) {
      if l.externalId.Some? {
        ClaimLowers(leases, i, cutoff, a, t.(staleHeartbeats := t.staleHeartbeats + 1));
      }
    } else if l.state == Provisioning {
      ProvisioningLowers(leases, i, now, a, t);
    } else if l.state in {Ready, Running} {
      TransitionLowers(leases, i, [l.state], Lost);
    } else {
      TerminateLowers(leases, i, a, t);
    }
  }

  // ----- the pass as the source runs it -----

  class SandboxReconciler {
    const repository: LeaseStore
    var tally: Tally

    constructor (repository: LeaseStore)
      ensures this.repository == repository && tally == NO_TALLY
    {
      this.repository, tally := repository, NO_TALLY;
    }

    method Fail()
      modifies this
      ensures tally == old(tally).(errors := old(tally).errors + 1)
    {
      tally := tally.(errors := tally.errors + 1);
    }

    method EndLease(i: nat, a: Answer)
      requires i < |repository.leases| && repository.leases[i].state == Terminating
      modifies this, repository
      ensures Handled(repository.leases, tally) == EndResource(old(repository.leases), i, a, old(tally))
    {
      if repository.leases[i].externalId.Some? {
        if !(a.configured && a.reachable) {
          Fail();
          return;
        }
        if a.pending || !a.gone {
          return;
        }
      }
      var ended := repository.MoveState(i, [Terminating], Terminated);
      tally := tally.(terminated := tally.terminated + 1);
    }

    method TerminateLease(i: nat, a: Answer)
      requires i < |repository.leases|
      modifies this, repository
      ensures Handled(repository.leases, tally) == Terminate(old(repository.leases), i, a, old(tally))
    {
      var state := repository.leases[i].state;
      if state == Terminated {
        tally := tally.(terminated := tally.terminated + 1);
        return;
      }
      if state != Terminating {
        var claimed := repository.MoveState(i, [state], Terminating);
        if !claimed.Changed? {
          Fail();
          return;
        }
      }
      EndLease(i, a);
    }

    method ResumeLease(i: nat, a: Answer)
      modifies this, repository
      ensures Handled(repository.leases, tally) == Resume(old(repository.leases), i, a, old(tally))
    {
      if a.resumes {
        var ready := repository.MoveState(i, [Provisioning], Ready);
        tally := tally.(resumed := tally.resumed + 1);
        return;
      }
      var claimed := repository.MoveState(i, [Provisioning], Terminating);
      if claimed.Changed? && !a.pending {
        var ended := repository.MoveState(i, [Terminating], Terminated);
      }
      Fail();
    }

    /** Retains the oldest resource listed, or a new one, and destroys the others. */
    method RetainOne(a: Answer) returns (retained: nat)
      modifies this
      ensures retained == Retained(a) && tally == WithDuplicates(old(tally), a)
    {
      retained := a.created;
      if a.listed == [] {
        return;
      }
      var sorted := Sort(Older, a.listed);
      var duplicates := sorted[1..];
      retained := sorted[0].ext;
      for n := 0 to |duplicates|
        invariant tally == old(tally).(
                    destroyedDuplicates := old(tally).destroyedDuplicates + CountGone(duplicates[..n]))
      {
        assert duplicates[..n + 1][..n] == duplicates[..n];
        if !duplicates[n].lingers {
          tally := tally.(destroyedDuplicates := tally.destroyedDuplicates + 1);
        }
      }
      assert duplicates[..|duplicates|] == duplicates;
    }

    method ReconcileProvisioningLease(i: nat, now: int, a: Answer)
      requires i < |repository.leases|
      modifies this, repository
      ensures Handled(repository.leases, tally) == ReconcileProvisioning(old(repository.leases), i, now, a, old(tally))
    {
      var l := repository.leases[i];
      if !a.configured {
        return;
      }
      if !a.reachable {
        Fail();
        return;
      }
      var externalId := l.externalId;
      if externalId.Some? && a.missing {
        var cleared := repository.Clear(i, l.reservation.provider, externalId.value);
        externalId := None;
      }
      if externalId == None {
        var retained := RetainOne(a);
        var bound := repository.Bind(i, l.reservation.provider, retained);
        if !bound.Changed? {
          Fail();
          return;
        }
      }
      var claimed := repository.ClaimProvisioning(i, a.untouched, now);
      if claimed.Changed? {
        ResumeLease(i, a);
      }
    }

    method HandleLease(i: nat, now: int, cutoff: int, a: Answer)
      requires i < |repository.leases|
      modifies this, repository
      ensures Handled(repository.leases, tally) == ReconcileLease(old(repository.leases), i, now, cutoff, a, old(tally))
    {
      var l := repository.leases[i];
      var expired := l.expiresAt <= now;
      if l.state == Reserved && expired {
        var failed := repository.MoveState(i, [Reserved], Failed);
        tally := tally.(failedReservations := tally.failedReservations + 1);
      } else if expired && l.state in {Provisioning, Ready, Running, Lost, Failed} {
        TerminateLease(i, a);
      } else if l.state == Running && Stale(l, cutoff) {
        if l.externalId.Some? {
          var claimed := repository.ClaimStaleRunning(i, l.reservation.provider, l.externalId.value, cutoff);
          match claimed {
            case Changed(_) =>
              tally := tally.(staleHeartbeats := tally.staleHeartbeats + 1);
              TerminateLease(i, a);
            case Duplicate => Fail();
            case _ =>
          }
        }
      } else if l.state == Provisioning {
        ReconcileProvisioningLease(i, now, a);
      } else if l.state in {Ready, Running} {
        if l.externalId.Some? && a.configured {
          if !a.reachable {
            Fail();
          } else if a.missing {
            var lost := repository.MoveState(i, [l.state], Lost);
            tally := tally.(lost := tally.lost + 1);
          }
        }
      } else if l.state in {Failed, Lost, Terminating} {
        TerminateLease(i, a);
      }
    }

    method CheckBound(provider: string, ext: nat) returns (bound: bool)
      ensures bound == IsBound(repository.leases, provider, ext)
    {
      for j := 0 to |repository.leases|
        invariant forall k | 0 <= k < j ::
                    !(repository.leases[k].reservation.provider == provider
                      && repository.leases[k].externalId == Some(ext))
      {
        if repository.leases[j].reservation.provider == provider && repository.leases[j].externalId == Some(ext) {
          return true;
        }
      }
      return false;
    }

    /** Destroys a resource that is an orphan, and leaves any other alone. */
    method DestroyOrphan(x: Seen, cutoff: int) returns (destroyed: seq<Seen>)
      modifies this
      ensures destroyed == if IsOrphan(repository.leases, x, cutoff) then [x] else []
      ensures tally == WithOrphans(old(tally), destroyed, 0)
    {
      var bound := CheckBound(x.provider, x.ext);
      if x.missing || x.createdAt > cutoff || !x.owned || bound {
        return [];
      }
      assert [x][..0] == [];
      if !x.lingers {
        tally := tally.(destroyedOrphans := tally.destroyedOrphans + 1);
      }
      destroyed := [x];
    }

    /** Destroys what a provider lists and no lease is bound to; an error is counted if it fails in the end. */
    method ReconcileOrphans(x: Sighting, cutoff: int) returns (destroyed: seq<Seen>)
      modifies this
      ensures destroyed == Orphans(repository.leases, FirstSeen(x), cutoff)
      ensures tally == WithOrphans(old(tally), destroyed, if x.fails then 1 else 0)
    {
      var seen := FirstSeen(x);
      destroyed := [];
      NoOrphans(tally);
      for n := 0 to |seen|
        invariant destroyed == Orphans(repository.leases, seen[..n], cutoff)
        invariant tally == WithOrphans(old(tally), destroyed, 0)
      {
        OrphansOfOneMore(repository.leases, seen, n, cutoff);
        var more := DestroyOrphan(seen[n], cutoff);
        OrphansJoin(old(tally), destroyed, 0, more, 0);
        destroyed := destroyed + more;
      }
      assert seen[..|seen|] == seen;
      if x.fails {
        Fail();
      }
    }

    /** The orphans of every provider, one after the other. */
    method ReconcileAllOrphans(sightings: seq<Sighting>, cutoff: int) returns (destroyed: seq<Seen>)
      modifies this
      ensures destroyed == AllOrphans(repository.leases, sightings, cutoff)
      ensures tally == WithOrphans(old(tally), destroyed, CountFailing(sightings))
    {
      destroyed := [];
      NoOrphans(tally);
      for n := 0 to |sightings|
        invariant destroyed == AllOrphans(repository.leases, sightings[..n], cutoff)
        invariant tally == WithOrphans(old(tally), destroyed, CountFailing(sightings[..n]))
      {
        AllOrphansOfOneMore(repository.leases, sightings, n, cutoff);
        var more := ReconcileOrphans(sightings[n], cutoff);
        OrphansJoin(old(tally), destroyed, CountFailing(sightings[..n]), more, if sightings[n].fails then 1 else 0);
        destroyed := destroyed + more;
      }
      assert sightings[..|sightings|] == sightings;
    }

    method HandleBatch(now: int, cutoff: int, answers: Answers)
      modifies this, repository
      ensures Handled(repository.leases, tally) == Reconcile(old(repository.leases), now, cutoff, answers)
    {
      var ids := Batch(repository.leases, 0, BATCH_SIZE);
      tally := NO_TALLY;
      ghost var whole := Pass(repository.leases, ids, now, cutoff, answers, tally);
      for n := 0 to |ids|
        invariant forall i | i in ids :: i < |repository.leases|
        invariant forall i | i in ids[n..] :: i in ids
        invariant whole == Pass(repository.leases, ids[n..], now, cutoff, answers, tally)
      {
        assert ids[n..][1..] == ids[n + 1..] && ids[n] in ids;
        HandlesOne(repository.leases, ids[n], now, cutoff, answers(ids[n]), tally);
        HandleLease(ids[n], now, cutoff, answers(ids[n]));
      }
      assert ids[|ids|..] == [];
    }

    /** One pass: the batch is read once and handled lease by lease, then every provider's orphans go. */
    method RunPass(now: int, cutoff: int, answers: Answers, sightings: seq<Sighting>, orphanCutoff: int)
      returns (destroyed: seq<Seen>)
      modifies this, repository
      ensures repository.leases == Reconcile(old(repository.leases), now, cutoff, answers).leases
      ensures tally == WithOrphans(Reconcile(old(repository.leases), now, cutoff, answers).tally,
                                   destroyed, CountFailing(sightings))
      ensures destroyed == AllOrphans(repository.leases, sightings, orphanCutoff)
    {
      HandleBatch(now, cutoff, answers);
      destroyed := ReconcileAllOrphans(sightings, orphanCutoff);
    }
  }

  /** A pass never destroys a resource as an orphan that a lease is bound to. */
  lemma {:induction false} NothingBoundIsDestroyed(leases: seq<Lease>, xs: seq<Sighting>, cutoff: int, x: Seen)
    requires x in AllOrphans(leases, xs, cutoff)
    ensures !IsBound(leases, x.provider, x.ext) && x.createdAt <= cutoff && x.owned
    decreases |xs|
  {
    var most, last := xs[..|xs| - 1], xs[|xs| - 1];
    if x in AllOrphans(leases, most, cutoff) {
      NothingBoundIsDestroyed(leases, most, cutoff, x);
    } else {
      OrphansAreUnbound(leases, FirstSeen(last), cutoff, x);
    }
  }

  // ----- progress -----

  lemma {:induction false} RankAfterUpdate(leases: seq<Lease>, i: nat, l: Lease)
    requires i < |leases|
    ensures TotalRank(leases[i := l]) == TotalRank(leases) - Rank(leases[i].state) + Rank(l.state)
    decreases |leases|
  {
    var n := |leases| - 1;
    if i == n {
      assert leases[i := l][..n] == leases[..n];
    } else {
      assert leases[i := l][..n] == leases[..n][i := l];
      RankAfterUpdate(leases[..n], i, l);
    }
  }

  lemma RankAfterOne(before: seq<Lease>, i: nat, after: seq<Lease>)
    requires OnlyLowers(before, i, after)
    ensures TotalRank(after) <= TotalRank(before)
    ensures TotalRank(after) == TotalRank(before) <==> after[i].state == before[i].state
  {
    assert after == before[i := after[i]];
    RankAfterUpdate(before, i, after[i]);
  }

  /** Whatever the provider answers, a pass never raises the total rank. */
  lemma {:induction false} PassNeverRaises(leases: seq<Lease>, ids: seq<nat>, now: int, cutoff: int,
                                           answers: Answers, t: Tally)
    requires forall i | i in ids :: i < |leases|
    ensures var after := Pass(leases, ids, now, cutoff, answers, t).leases;
            |after| == |leases| && TotalRank(after) <= TotalRank(leases)
    decreases |ids|
  {
    if ids != [] {
      var i := ids[0];
      assert i in ids && forall j | j in ids[1..] :: j in ids;
      HandlesOne(leases, i, now, cutoff, answers(i), t);
      var h := ReconcileLease(leases, i, now, cutoff, answers(i), t);
      RankAfterOne(leases, i, h.leases);
      PassNeverRaises(h.leases, ids[1..], now, cutoff, answers, h.tally);
    }
  }

  predicate Responsive(a: Answer) {
    a.configured && a.reachable && !a.pending && a.gone
  }

  /** The branch index refuses to let this lease enter terminating. */
  predicate Refused(leases: seq<Lease>, i: nat) {
    i < |leases| && leases[i].state !in {Reserved, Terminating, Terminated} && IndexRefuses(leases, i, Terminating)
  }

  ghost predicate Due(leases: seq<Lease>, ids: seq<nat>, now: int) {
    && (forall n | 0 <= n < |ids| ::
          ids[n] < |leases| && leases[ids[n]].state != Terminated && leases[ids[n]].expiresAt <= now)
    && (forall n, k | 0 <= n < k < |ids| :: ids[n] != ids[k])
  }

  /** An expired lease is failed or ended, unless the index refuses. */
  lemma ExpiredLeaseMoves(leases: seq<Lease>, i: nat, now: int, cutoff: int, a: Answer, t: Tally)
    requires i < |leases| && leases[i].state != Terminated && leases[i].expiresAt <= now && Responsive(a)
    ensures var after := ReconcileLease(leases, i, now, cutoff, a, t).leases;
            after == if Refused(leases, i) then leases
                     else leases[i := leases[i].(state := if leases[i].state == Reserved then Failed else Terminated)]
  {
    var l := leases[i];
    if l.state == Reserved {
      assert Transition(leases, i, [Reserved], Failed).update == Changed(i);
    } else if l.state == Terminating {
      assert leases[i := l.(state := Terminated)] == Transition(leases, i, [Terminating], Terminated).leases;
    } else if !Refused(leases, i) {
      var mid := leases[i := l.(state := Terminating)];
      assert Transition(leases, i, [l.state], Terminating) == Written(Changed(i), mid);
      assert mid[i := l.(state := Terminated)] == leases[i := l.(state := Terminated)];
    }
  }

  lemma DueLater(leases: seq<Lease>, ids: seq<nat>, now: int, l: Lease)
    requires Due(leases, ids, now) && ids != []
    ensures Due(leases, ids[1..], now) && Due(leases[ids[0] := l], ids[1..], now)
    ensures ids[0] < |leases| && forall i | i in ids[1..] :: i != ids[0] && i in ids
  {
    forall i | i in ids[1..] ensures i != ids[0] && i in ids {
      var n :| 0 <= n < |ids[1..]| && ids[1..][n] == i;
      assert ids[n + 1] == i;
    }
  }

  /**
   Progress, exactly: with a responsive provider and expired leases, a pass leaves the total rank as
   it was if and only if the index refuses every lease of the batch, and lowers it otherwise.
   */
  lemma {:induction false} StuckExactlyWhenAllRefused(
      leases: seq<Lease>, ids: seq<nat>, now: int, cutoff: int, answers: Answers, t: Tally)
    requires Due(leases, ids, now) && forall i | i in ids :: i < |leases| && Responsive(answers(i))
    ensures var after := Pass(leases, ids, now, cutoff, answers, t).leases;
            && TotalRank(after) <= TotalRank(leases)
            && (TotalRank(after) == TotalRank(leases) <==> forall i | i in ids :: Refused(leases, i))
    decreases |ids|
  {
    PassNeverRaises(leases, ids, now, cutoff, answers, t);
    if ids != [] {
      var i := ids[0];
      assert i in ids;
      ExpiredLeaseMoves(leases, i, now, cutoff, answers(i), t);
      HandlesOne(leases, i, now, cutoff, answers(i), t);
      var h := ReconcileLease(leases, i, now, cutoff, answers(i), t);
      RankAfterOne(leases, i, h.leases);
      DueLater(leases, ids, now, h.leases[i]);
      if Refused(leases, i) {
        StuckExactlyWhenAllRefused(leases, ids[1..], now, cutoff, answers, h.tally);
        assert (forall j | j in ids[1..] :: Refused(leases, j)) ==> forall j | j in ids :: Refused(leases, j);
      } else {
        PassNeverRaises(h.leases, ids[1..], now, cutoff, answers, h.tally);
      }
    }
  }

  // ----- batches that hold everything -----

  function OpenCount(leases: seq<Lease>, from: nat): nat
    decreases |leases| - from
  {
    if from >= |leases| then 0
    else (if leases[from].state == Terminated then 0 else 1) + OpenCount(leases, from + 1)
  }

  lemma {:induction false} BatchHoldsAll(leases: seq<Lease>, from: nat, limit: nat)
    requires OpenCount(leases, from) <= limit
    ensures forall i | from <= i < |leases| && leases[i].state != Terminated :: i in Batch(leases, from, limit)
    decreases |leases| - from
  {
    if from < |leases| {
      if leases[from].state == Terminated {
        BatchHoldsAll(leases, from + 1, limit);
      } else {
        BatchHoldsAll(leases, from + 1, limit - 1);
      }
      NothingOpenFrom(leases, from, limit);
    }
  }

  lemma {:induction false} NothingOpenFrom(leases: seq<Lease>, from: nat, limit: nat)
    ensures OpenCount(leases, from) == 0 ==> forall i | from <= i < |leases| :: leases[i].state == Terminated
    decreases |leases| - from
  {
    if from < |leases| {
      NothingOpenFrom(leases, from + 1, limit);
    }
  }

  ghost predicate AllExpired(leases: seq<Lease>, now: int) {
    forall i | 0 <= i < |leases| && leases[i].state != Terminated :: leases[i].expiresAt <= now
  }

  ghost predicate AllResponsive(answers: Answers) {
    forall i: nat :: Responsive(answers(i))
  }

  lemma BatchIsDue(leases: seq<Lease>, now: int)
    requires AllExpired(leases, now)
    ensures Due(leases, Batch(leases, 0, BATCH_SIZE), now)
    ensures forall i | i in Batch(leases, 0, BATCH_SIZE) :: i < |leases|
  {
  }

  /**
   With at most one batch of open leases, all expired, and a responsive provider, every pass lowers
   the total rank while a lease is open, even when the branch index refuses some.
   */
  lemma EveryPassMakesProgress(leases: seq<Lease>, now: int, cutoff: int, answers: Answers)
    requires BranchesExclusive(leases) && AllExpired(leases, now) && AllResponsive(answers)
    requires 0 < OpenCount(leases, 0) <= BATCH_SIZE
    ensures TotalRank(Reconcile(leases, now, cutoff, answers).leases) < TotalRank(leases)
  {
    var ids := Batch(leases, 0, BATCH_SIZE);
    BatchIsDue(leases, now);
    BatchHoldsAll(leases, 0, BATCH_SIZE);
    StuckExactlyWhenAllRefused(leases, ids, now, cutoff, answers, NO_TALLY);
    var i := SomeLeaseIsNotRefused(leases);
    assert i in ids;
  }

  /** The lease that holds the branch another one is refused for is not refused itself. */
  lemma SomeLeaseIsNotRefused(leases: seq<Lease>) returns (i: nat)
    requires BranchesExclusive(leases) && OpenCount(leases, 0) > 0
    ensures i < |leases| && leases[i].state != Terminated && !Refused(leases, i)
  {
    SomeLeaseIsOpen(leases, 0);
    i :| 0 <= i < |leases| && leases[i].state != Terminated;
    if Refused(leases, i) {
      var j :| 0 <= j < |leases| && j != i && HoldsBranch(leases[j], leases[i].reservation.branch);
      if Refused(leases, j) {
        RefusedMeansClash(leases, j);
      }
      i := j;
    }
  }

  lemma {:induction false} SomeLeaseIsOpen(leases: seq<Lease>, from: nat)
    requires OpenCount(leases, from) > 0
    ensures exists i :: 0 <= i < |leases| && leases[i].state != Terminated
    decreases |leases| - from
  {
    if leases[from].state == Terminated {
      SomeLeaseIsOpen(leases, from + 1);
    }
  }

  /** A lease that holds the branch is itself refused only if two hold it. */
  lemma RefusedMeansClash(leases: seq<Lease>, j: nat)
    requires j < |leases| && HoldsBranch(leases[j], leases[j].reservation.branch) && Refused(leases, j)
    ensures !BranchesExclusive(leases)
  {
    var k :| 0 <= k < |leases| && k != j && HoldsBranch(leases[k], leases[j].reservation.branch);
    var a, b := if k < j then k else j, if k < j then j else k;
    assert HoldsBranch(leases[a], leases[b].reservation.branch) && HoldsBranch(leases[b], leases[b].reservation.branch);
  }

  // ----- two passes -----

  predicate Quiet(s: State) {
    s in {Failed, Lost, Terminated}
  }

  /** Every lease that is not among `ids` is quiet already. */
  ghost predicate QuietOutside(leases: seq<Lease>, ids: seq<nat>) {
    forall i: nat | i < |leases| && i !in ids :: Quiet(leases[i].state)
  }

  lemma QuietingKeepsExclusive(leases: seq<Lease>, i: nat, l: Lease)
    requires BranchesExclusive(leases) && i < |leases| && l.reservation == leases[i].reservation && Quiet(l.state)
    ensures BranchesExclusive(leases[i := l])
  {
    UpdateKeepsExclusive(leases, i, l);
  }

  /** A first pass over everything that is open leaves only failed, lost and terminated leases. */
  lemma {:induction false} PassQuiets(leases: seq<Lease>, ids: seq<nat>, now: int, cutoff: int, answers: Answers,
                                      t: Tally)
    requires Due(leases, ids, now) && AllResponsive(answers) && forall i | i in ids :: i < |leases|
    requires BranchesExclusive(leases) && QuietOutside(leases, ids)
    ensures var after := Pass(leases, ids, now, cutoff, answers, t).leases;
            && |after| == |leases|
            && (forall i | 0 <= i < |leases| :: Quiet(after[i].state) && after[i].expiresAt == leases[i].expiresAt)
            && (forall i | 0 <= i < |leases| && leases[i].state == Terminated :: after[i].state == Terminated)
    decreases |ids|
  {
    if ids != [] {
      var i := ids[0];
      assert i in ids && Responsive(answers(i));
      ExpiredLeaseMoves(leases, i, now, cutoff, answers(i), t);
      HandlesOne(leases, i, now, cutoff, answers(i), t);
      var h := ReconcileLease(leases, i, now, cutoff, answers(i), t);
      if Refused(leases, i) && HoldsBranch(leases[i], leases[i].reservation.branch) {
        RefusedMeansClash(leases, i);
      }
      assert Quiet(h.leases[i].state);
      DueLater(leases, ids, now, h.leases[i]);
      assert h.leases == leases[i := h.leases[i]];
      QuietingKeepsExclusive(leases, i, h.leases[i]);
      PassQuiets(h.leases, ids[1..], now, cutoff, answers, h.tally);
    }
  }

  /** On quiet leases the index refuses nothing, so a pass ends every lease it handles. */
  lemma {:induction false} QuietPassEnds(leases: seq<Lease>, ids: seq<nat>, now: int, cutoff: int, answers: Answers,
                                         t: Tally)
    requires Due(leases, ids, now) && AllResponsive(answers) && forall i | i in ids :: i < |leases|
    requires forall i | 0 <= i < |leases| :: Quiet(leases[i].state)
    requires forall i: nat | i < |leases| && i !in ids :: leases[i].state == Terminated
    ensures var after := Pass(leases, ids, now, cutoff, answers, t).leases;
            |after| == |leases| && forall i | 0 <= i < |leases| :: after[i].state == Terminated
    decreases |ids|
  {
    if ids != [] {
      var i := ids[0];
      assert i in ids && Responsive(answers(i));
      assert !Refused(leases, i);
      ExpiredLeaseMoves(leases, i, now, cutoff, answers(i), t);
      HandlesOne(leases, i, now, cutoff, answers(i), t);
      var h := ReconcileLease(leases, i, now, cutoff, answers(i), t);
      DueLater(leases, ids, now, h.leases[i]);
      assert h.leases == leases[i := h.leases[i]];
      QuietPassEnds(h.leases, ids[1..], now, cutoff, answers, h.tally);
    }
  }

  lemma {:induction false} FewerOpen(a: seq<Lease>, b: seq<Lease>, from: nat)
    requires |a| == |b| && forall i | 0 <= i < |a| && a[i].state == Terminated :: b[i].state == Terminated
    ensures OpenCount(b, from) <= OpenCount(a, from)
    decreases |a| - from
  {
    if from < |a| {
      FewerOpen(a, b, from + 1);
    }
  }

  /** Two passes end them all, whatever the branch index refused in the first. */
  lemma TwoPassesEndAll(leases: seq<Lease>, now: int, cutoff: int, first: Answers, second: Answers)
    requires BranchesExclusive(leases) && AllExpired(leases, now) && AllResponsive(first) && AllResponsive(second)
    requires OpenCount(leases, 0) <= BATCH_SIZE
    ensures var mid := Reconcile(leases, now, cutoff, first).leases;
            var after := Reconcile(mid, now, cutoff, second).leases;
            |after| == |leases| && forall i | 0 <= i < |after| :: after[i].state == Terminated
  {
    var mid := Reconcile(leases, now, cutoff, first).leases;
    BatchIsDue(leases, now);
    BatchHoldsAll(leases, 0, BATCH_SIZE);
    PassQuiets(leases, Batch(leases, 0, BATCH_SIZE), now, cutoff, first, NO_TALLY);
    FewerOpen(leases, mid, 0);
    BatchIsDue(mid, now);
    BatchHoldsAll(mid, 0, BATCH_SIZE);
    QuietPassEnds(mid, Batch(mid, 0, BATCH_SIZE), now, cutoff, second, NO_TALLY);
  }

  // ----- more than one batch: starvation -----

  function PileKey(n: nat): string {
    seq(n, _ => '+')
  }

  function PileLease(n: nat, state: State): Lease {
    NewLease(Reservation("w", "p", "b", Build, PileKey(n), "daytona", Profile(1.0, 1, 1), ""), 0).(state := state)
  }

  /** `n` failed builds of one branch. */
  function Pile(n: nat): seq<Lease> {
    seq(n, i requires 0 <= i => PileLease(i, Failed))
  }

  lemma PileKeysDiffer(n: nat)
    ensures FindKey(Pile(n), PileKey(n)) == n
  {
    forall i | 0 <= i < n ensures Pile(n)[i].reservation.key != PileKey(n) {
      assert |PileKey(i)| == i && |PileKey(n)| == n;
    }
  }

  /** Reserving one more build of the branch and failing it makes the pile one higher. */
  lemma PileGrows(n: nat)
    ensures var r := PileLease(n, Reserved).reservation;
            var reserved := CreateReserved(Pile(n), r, 0);
            && reserved == Written(Changed(n), Pile(n) + [PileLease(n, Reserved)])
            && Transition(reserved.leases, n, [Reserved], Failed) == Written(Changed(n), Pile(n + 1))
  {
    PileKeysDiffer(n);
    assert !BranchTaken(Pile(n), n, "b");
    assert (Pile(n) + [PileLease(n, Reserved)])[n := PileLease(n, Failed)] == Pile(n + 1);
  }

  lemma {:induction false} BatchOfPile(leases: seq<Lease>, from: nat, limit: nat)
    requires from + limit <= |leases| && forall i | from <= i < |leases| :: leases[i].state != Terminated
    ensures forall i | i in Batch(leases, from, limit) :: from <= i < from + limit
    decreases |leases| - from
  {
    if limit > 0 {
      BatchOfPile(leases, from + 1, limit - 1);
    }
  }

  /** `n` failed builds, and behind them the reserved one that holds their branch. */
  function Queue(n: nat): seq<Lease> {
    Pile(n) + [PileLease(n, Reserved)]
  }

  lemma QueueLease(n: nat, i: nat)
    requires i <= n
    ensures |Queue(n)| == n + 1 && Queue(n)[i] == PileLease(i, if i < n then Failed else Reserved)
  {
  }

  lemma QueueIsRefused(n: nat, i: nat)
    requires i < n
    ensures Refused(Queue(n), i)
  {
    QueueLease(n, i);
    QueueLease(n, n);
    assert HoldsBranch(Queue(n)[n], "b");
  }

  lemma QueueIsSound(n: nat, now: int)
    requires now >= 0
    ensures BranchesExclusive(Queue(n)) && AllExpired(Queue(n), now)
    ensures |Queue(n)| == n + 1 && forall i | 0 <= i <= n :: Queue(n)[i].state != Terminated
  {
    forall i | 0 <= i <= n
      ensures Queue(n)[i].state != Terminated && Queue(n)[i].expiresAt == 0 && (i < n ==> Queue(n)[i].state == Failed)
    {
      QueueLease(n, i);
    }
  }

  /** The pile is built from nothing, by reserving and failing one build after the other. */
  lemma {:induction false} PileIsReached(n: nat) returns (writes: seq<LeaseWrite>)
    ensures Run(STORE, [], writes, Pile(n))
    decreases n
  {
    if n == 0 {
      writes := [];
      assert Pile(0) == [];
    } else {
      var before := PileIsReached(n - 1);
      PileGrows(n - 1);
      var r := PileLease(n - 1, Reserved).reservation;
      var reserve, fail := LeaseWrite(0, Reserve(r, 0)), LeaseWrite(n - 1, Move([Reserved], Failed));
      var reserved := CreateReserved(Pile(n - 1), r, 0).leases;
      OneMore(STORE, [], before, Pile(n - 1), reserve, reserved);
      OneMore(STORE, [], before + [reserve], reserved, fail, Pile(n));
      writes := before + [reserve] + [fail];
    }
  }

  lemma QueueIsReached(n: nat) returns (writes: seq<LeaseWrite>)
    ensures Run(STORE, [], writes, Queue(n))
  {
    var before := PileIsReached(n);
    PileGrows(n);
    var reserve := LeaseWrite(0, Reserve(PileLease(n, Reserved).reservation, 0));
    OneMore(STORE, [], before, Pile(n), reserve, Queue(n));
    writes := before + [reserve];
  }

  /**
   More than one batch can starve, in a state that reservations and failures reach: a hundred failed
   builds fill every batch, and the one lease that would free their branch is behind them, so passes
   change no state.
   */
  lemma BatchStarves(now: int, cutoff: int, answers: Answers) returns (writes: seq<LeaseWrite>)
    requires now >= 0 && AllResponsive(answers)
    ensures Run(STORE, [], writes, Queue(BATCH_SIZE))
    ensures var leases := Queue(BATCH_SIZE);
            && BranchesExclusive(leases) && AllExpired(leases, now) && OpenCount(leases, 0) > 0
            && TotalRank(Reconcile(leases, now, cutoff, answers).leases) == TotalRank(leases)
  {
    var leases, n := Queue(BATCH_SIZE), BATCH_SIZE;
    writes := QueueIsReached(n);
    var ids := Batch(leases, 0, n);
    QueueIsSound(n, now);
    BatchIsDue(leases, now);
    BatchOfPile(leases, 0, n);
    forall i | i in ids ensures Refused(leases, i) {
      QueueIsRefused(n, i);
    }
    StuckExactlyWhenAllRefused(leases, ids, now, cutoff, answers, NO_TALLY);
  }
}
