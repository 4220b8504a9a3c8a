/**
 Sandbox leases: their states, the stored collection, and the compare-and-set operations on it.
 A lease's id is its position; leases are never deleted.
 */
module Leases {
  import opened Results
  import opened Runs

  datatype State = Reserved | Provisioning | Ready | Running | Terminating | Terminated | Failed | Lost

  function Allowed(from: State): set<State> {
    match from
    case Reserved => {Provisioning, Failed, Terminating}
    case Provisioning => {Ready, Failed, Terminating}
    case Ready => {Running, Lost, Terminating}
    case Running => {Lost, Terminating}
    case Terminating => {Terminated}
    case Terminated => {}
    case Failed => {Terminating, Terminated}
    case Lost => {Terminating, Terminated}
  }

  const ACTIVE: set<State> := {Reserved, Provisioning, Ready, Running}
  const OCCUPYING: set<State> := ACTIVE + {Terminating}

  datatype Purpose = Build | Preview

  datatype Profile = Profile(cpu: real, memoryMiB: nat, diskMiB: nat)

  /** What a reservation is compared by; `terms` is everything that only has to match. */
  datatype Reservation = Reservation(
    workspace: string, project: string, branch: string, purpose: Purpose,
    key: string, provider: string, profile: Profile, terms: string)

  datatype Lease = Lease(
    reservation: Reservation, state: State, externalId: Option<nat>,
    heartbeatAt: Option<int>, expiresAt: int)

  datatype Update =
    | Changed(id: nat)
    | NotMatched         // no document met the filter
    | Duplicate          // a unique index refused the write
    | InvalidTransition  // the table forbids it
    | Mismatch           // the provisioning key belongs to another reservation

  datatype Written = Written(update: Update, leases: seq<Lease>)

  // ----- the unique indexes -----

  predicate HoldsBranch(l: Lease, branch: string) {
    l.reservation.purpose == Build && l.reservation.branch == branch && l.state in OCCUPYING
  }

  /** Some lease other than `i` holds the branch in the partial unique index. */
  predicate BranchTaken(leases: seq<Lease>, i: nat, branch: string) {
    exists j | 0 <= j < |leases| :: j != i && HoldsBranch(leases[j], branch)
  }

  predicate IndexRefuses(leases: seq<Lease>, i: nat, to: State)
    requires i < |leases|
  {
    var r := leases[i].reservation;
    r.purpose == Build && to in OCCUPYING && BranchTaken(leases, i, r.branch)
  }

  predicate ExternalTaken(leases: seq<Lease>, i: nat, provider: string, ext: nat) {
    exists j | 0 <= j < |leases| ::
      j != i && leases[j].reservation.provider == provider && leases[j].externalId == Some(ext)
  }

  /** At most one build lease of a branch occupies it. */
  ghost predicate BranchesExclusive(leases: seq<Lease>) {
    forall i, j | 0 <= i < j < |leases| && HoldsBranch(leases[i], leases[j].reservation.branch) ::
      !HoldsBranch(leases[j], leases[j].reservation.branch)
  }

  // ----- the operations, as functions of the stored leases -----

  predicate Legal(from: seq<State>, to: State) {
    from != [] && forall s | s in from :: to in Allowed(s)
  }

  function Transition(leases: seq<Lease>, i: nat, from: seq<State>, to: State): Written {
    if !Legal(from, to) then Written(InvalidTransition, leases)
    else if i >= |leases| || leases[i].state !in from then Written(NotMatched, leases)
    else if IndexRefuses(leases, i, to) then Written(Duplicate, leases)
    else Written(Changed(i), leases[i := leases[i].(state := to)])
  }

  predicate Bound(leases: seq<Lease>, i: nat, state: State, provider: string, ext: Option<nat>) {
    i < |leases| && leases[i].state == state && leases[i].reservation.provider == provider
        && leases[i].externalId == ext
  }

  function BindExternal(leases: seq<Lease>, i: nat, provider: string, ext: nat): Written {
    if !Bound(leases, i, Provisioning, provider, None) then Written(NotMatched, leases)
    else if ExternalTaken(leases, i, provider, ext) then Written(Duplicate, leases)
    else Written(Changed(i), leases[i := leases[i].(externalId := Some(ext))])
  }

  function ClearExternal(leases: seq<Lease>, i: nat, provider: string, ext: nat): Written {
    if !Bound(leases, i, Provisioning, provider, Some(ext)) then Written(NotMatched, leases)
    else Written(Changed(i), leases[i := leases[i].(externalId := None)])
  }

  function HeartbeatRunning(leases: seq<Lease>, i: nat, provider: string, ext: nat, at: int): Written {
    if !Bound(leases, i, Running, provider, Some(ext)) then Written(NotMatched, leases)
    else Written(Changed(i), leases[i := leases[i].(heartbeatAt := Some(at))])
  }

  /** A claim on a provisioning lease that nobody has written since it was read. */
  function ProvisioningClaimed(leases: seq<Lease>, i: nat, untouched: bool, at: int): Written {
    if i >= |leases| || leases[i].state != Provisioning || !untouched then Written(NotMatched, leases)
    else Written(Changed(i), leases[i := leases[i].(heartbeatAt := Some(at))])
  }

  predicate Stale(l: Lease, cutoff: int) {
    l.heartbeatAt.Some? && l.heartbeatAt.value <= cutoff
  }

  function ClaimStale(leases: seq<Lease>, i: nat, provider: string, ext: nat, cutoff: int): Written {
    if !Bound(leases, i, Running, provider, Some(ext)) || !Stale(leases[i], cutoff) then Written(NotMatched, leases)
    else if IndexRefuses(leases, i, Terminating) then Written(Duplicate, leases)
    else Written(Changed(i), leases[i := leases[i].(state := Terminating)])
  }

  /** The position of the first lease with this key, or the number of leases. */
  function FindKey(leases: seq<Lease>, key: string): (k: nat)
    ensures k <= |leases| && (k < |leases| ==> leases[k].reservation.key == key)
    ensures forall i | 0 <= i < k :: leases[i].reservation.key != key
  {
    if leases == [] || leases[0].reservation.key == key then 0 else 1 + FindKey(leases[1..], key)
  }

  function NewLease(r: Reservation, expiresAt: int): Lease {
    Lease(r, Reserved, None, None, expiresAt)
  }

  function CreateReserved(leases: seq<Lease>, r: Reservation, expiresAt: int): Written {
    var k := FindKey(leases, r.key);
    if k < |leases| then Written(if leases[k].reservation == r then Changed(k) else Mismatch, leases)
    else if r.purpose == Build && BranchTaken(leases, k, r.branch) then Written(Duplicate, leases)
    else Written(Changed(k), leases + [NewLease(r, expiresAt)])
  }

  // ----- the stored collection -----

  class LeaseStore {
    var leases: seq<Lease>

    constructor ()
      ensures leases == []
    {
      leases := [];
    }

    method FindByProvisioningKey(key: string) returns (k: nat)
      ensures k == FindKey(leases, key)
    {
      k := 0;
      while k < |leases|
        invariant k <= |leases| && FindKey(leases, key) == k + FindKey(leases[k..], key)
      {
        if leases[k].reservation.key == key {
          return;
        }
        assert leases[k..][1..] == leases[k + 1..];
        k := k + 1;
      }
    }

    method IsBranchTaken(i: nat, branch: string) returns (taken: bool)
      ensures taken == BranchTaken(leases, i, branch)
    {
      for j := 0 to |leases|
        invariant forall h | 0 <= h < j :: h == i || !HoldsBranch(leases[h], branch)
      {
        if j != i && HoldsBranch(leases[j], branch) {
          return true;
        }
      }
      return false;
    }

    method IsExternalTaken(i: nat, provider: string, ext: nat) returns (taken: bool)
      ensures taken == ExternalTaken(leases, i, provider, ext)
    {
      for j := 0 to |leases|
        invariant forall h | 0 <= h < j ::
          h == i || leases[h].reservation.provider != provider || leases[h].externalId != Some(ext)
      {
        if j != i && leases[j].reservation.provider == provider && leases[j].externalId == Some(ext) {
          return true;
        }
      }
      return false;
    }

    method MoveState(i: nat, from: seq<State>, to: State) returns (update: Update)
      modifies this
      ensures Written(update, leases) == Transition(old(leases), i, from, to)
    {
      if from == [] {
        return InvalidTransition;
      }
      for n := 0 to |from|
        invariant forall m | 0 <= m < n :: to in Allowed(from[m])
      {
        if to !in Allowed(from[n]) {
          return InvalidTransition;
        }
      }
      if i >= |leases| || leases[i].state !in from {
        return NotMatched;
      }
      update := SetState(i, to);
    }

    /** The write itself: refused when it would put a second build lease of the branch in the index. */
    method SetState(i: nat, to: State) returns (update: Update)
      requires i < |leases|
      modifies this
      ensures Written(update, leases) ==
              if IndexRefuses(old(leases), i, to) then Written(Duplicate, old(leases))
              else Written(Changed(i), old(leases)[i := old(leases)[i].(state := to)])
    {
      var r := leases[i].reservation;
      if r.purpose == Build && to in OCCUPYING {
        var taken := IsBranchTaken(i, r.branch);
        if taken {
          return Duplicate;
        }
      }
      leases := leases[i := leases[i].(state := to)];
      update := Changed(i);
    }

    method Bind(i: nat, provider: string, ext: nat) returns (update: Update)
      modifies this
      ensures Written(update, leases) == BindExternal(old(leases), i, provider, ext)
    {
      if !Bound(leases, i, Provisioning, provider, None) {
        return NotMatched;
      }
      var taken := IsExternalTaken(i, provider, ext);
      if taken {
        return Duplicate;
      }
      leases := leases[i := leases[i].(externalId := Some(ext))];
      update := Changed(i);
    }

    method Clear(i: nat, provider: string, ext: nat) returns (update: Update)
      modifies this
      ensures Written(update, leases) == ClearExternal(old(leases), i, provider, ext)
    {
      if !Bound(leases, i, Provisioning, provider, Some(ext)) {
        return NotMatched;
      }
      leases := leases[i := leases[i].(externalId := None)];
      update := Changed(i);
    }

    method Heartbeat(i: nat, provider: string, ext: nat, at: int) returns (update: Update)
      modifies this
      ensures Written(update, leases) == HeartbeatRunning(old(leases), i, provider, ext, at)
    {
      if !Bound(leases, i, Running, provider, Some(ext)) {
        return NotMatched;
      }
      leases := leases[i := leases[i].(heartbeatAt := Some(at))];
      update := Changed(i);
    }

    method ClaimProvisioning(i: nat, untouched: bool, at: int) returns (update: Update)
      modifies this
      ensures Written(update, leases) == ProvisioningClaimed(old(leases), i, untouched, at)
    {
      if i >= |leases| || leases[i].state != Provisioning || !untouched {
        return NotMatched;
      }
      leases := leases[i := leases[i].(heartbeatAt := Some(at))];
      update := Changed(i);
    }

    method ClaimStaleRunning(i: nat, provider: string, ext: nat, cutoff: int) returns (update: Update)
      modifies this
      ensures Written(update, leases) == ClaimStale(old(leases), i, provider, ext, cutoff)
    {
      if !Bound(leases, i, Running, provider, Some(ext)) || !Stale(leases[i], cutoff) {
        return NotMatched;
      }
      update := SetState(i, Terminating);
    }

    method Create(r: Reservation, expiresAt: int) returns (update: Update)
      modifies this
      ensures Written(update, leases) == CreateReserved(old(leases), r, expiresAt)
    {
      var k := FindByProvisioningKey(r.key);
      if k < |leases| {
        return if leases[k].reservation == r then Changed(k) else Mismatch;
      }
      if r.purpose == Build {
        var taken := IsBranchTaken(k, r.branch);
        if taken {
          return Duplicate;
        }
      }
      leases := leases + [NewLease(r, expiresAt)];
      update := Changed(k);
    }
  }

  // ----- what every operation keeps -----

  /** One lease of the collection after one write: the same reservation, and a table transition. */
  predicate Successor(l: Lease, m: Lease) {
    && m.reservation == l.reservation && m.expiresAt == l.expiresAt
    && (m.state == l.state || m.state in Allowed(l.state))
    && (m.externalId != l.externalId ==> l.state == Provisioning && m.state == Provisioning)
  }

  /** Nothing is deleted, reordered or re-reserved; new leases start out reserved and unbound. */
  ghost predicate Evolves(before: seq<Lease>, after: seq<Lease>) {
    && |before| <= |after|
    && (forall i | 0 <= i < |before| :: Successor(before[i], after[i]))
    && (forall i | |before| <= i < |after| :: after[i].state == Reserved && after[i].externalId == None)
  }

  datatype Op =
    | Move(from: seq<State>, to: State)
    | BindTo(provider: string, ext: nat)
    | ClearFrom(provider: string, ext: nat)
    | Beat(provider: string, ext: nat, at: int)
    | Claim(provider: string, ext: nat, at: int)
    | Hold(untouched: bool, at: int)
    | Reserve(r: Reservation, at: int)

  function Apply(leases: seq<Lease>, i: nat, op: Op): Written {
    match op
    case Move(from, to) => Transition(leases, i, from, to)
    case BindTo(provider, ext) => BindExternal(leases, i, provider, ext)
    case ClearFrom(provider, ext) => ClearExternal(leases, i, provider, ext)
    case Beat(provider, ext, at) => HeartbeatRunning(leases, i, provider, ext, at)
    case Claim(provider, ext, at) => ClaimStale(leases, i, provider, ext, at)
    case Hold(untouched, at) => ProvisioningClaimed(leases, i, untouched, at)
    case Reserve(r, at) => CreateReserved(leases, r, at)
  }

  /** A write to the stored leases: the operation, and the lease it is for. */
  datatype LeaseWrite = LeaseWrite(i: nat, op: Op)

  /** The stored leases by themselves: any write may come at any time. */
  const STORE: Machine<seq<Lease>, LeaseWrite> :=
    Machine((leases, x) => true, (leases, x: LeaseWrite) => Apply(leases, x.i, x.op).leases)

  lemma OneUpdateEvolves(leases: seq<Lease>, i: nat, l: Lease)
    requires i < |leases| && Successor(leases[i], l)
    ensures Evolves(leases, leases[i := l])
  {
  }

  lemma TransitionEvolves(leases: seq<Lease>, i: nat, from: seq<State>, to: State)
    ensures Evolves(leases, Transition(leases, i, from, to).leases)
  {
    if i < |leases| && leases[i].state in from && Legal(from, to) {
      assert to in Allowed(leases[i].state);
      OneUpdateEvolves(leases, i, leases[i].(state := to));
    }
  }

  lemma CreateEvolves(leases: seq<Lease>, r: Reservation, at: int)
    ensures Evolves(leases, CreateReserved(leases, r, at).leases)
  {
  }

  lemma WritesEvolve(leases: seq<Lease>, i: nat, op: Op)
    ensures Evolves(leases, Apply(leases, i, op).leases)
  {
    if op.Move? {
      TransitionEvolves(leases, i, op.from, op.to);
    } else if op.Reserve? {
      CreateEvolves(leases, op.r, op.at);
    } else if Apply(leases, i, op).update.Changed? {
      OneUpdateEvolves(leases, i, Apply(leases, i, op).leases[i]);
    }
  }

  /** However often it is written, a lease that left provisioning never changes its resource. */
  lemma ResourceIsFrozen(before: seq<Lease>, after: seq<Lease>, i: nat)
    requires Evolves(before, after) && i < |before| && before[i].state !in {Reserved, Provisioning}
    ensures after[i].externalId == before[i].externalId && after[i].state !in {Reserved, Provisioning}
  {
    assert Successor(before[i], after[i]);
  }

  lemma UpdateKeepsExclusive(leases: seq<Lease>, i: nat, l: Lease)
    requires BranchesExclusive(leases) && i < |leases| && l.reservation == leases[i].reservation
    requires l.state in OCCUPYING && l.reservation.purpose == Build ==>
               leases[i].state in OCCUPYING || !BranchTaken(leases, i, l.reservation.branch)
    ensures BranchesExclusive(leases[i := l])
  {
  }

  /** Every operation keeps at most one occupying build lease per branch. */
  lemma WritesKeepBranchesExclusive(leases: seq<Lease>, i: nat, op: Op)
    requires BranchesExclusive(leases)
    ensures BranchesExclusive(Apply(leases, i, op).leases)
  {
    match op
    case Reserve(r, at) =>
      var k := FindKey(leases, r.key);
      if k == |leases| && r.purpose == Build {
        assert BranchTaken(leases, k, r.branch) || forall j | 0 <= j < |leases| :: !HoldsBranch(leases[j], r.branch);
      }
    case _ =>
      var after := Apply(leases, i, op).leases;
      if after != leases {
        UpdateKeepsExclusive(leases, i, after[i]);
        assert after == leases[i := after[i]];
      }
  }
}
