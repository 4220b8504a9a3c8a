/**
 Artifact manifests and their blobs: idempotent writers, readers and reconcilers, interleaved and
 crashing anywhere, over a store that never overwrites.
 */
module Manifests {
  import opened Results
  import opened Runs

  type Bytes = seq<bv8>

  /** What a manifest records about its blob; `others` are the fields that only have to match. */
  datatype Integrity = Integrity(sha256: string, compressedBytes: nat, others: string)

  /** Does the blob decode under exactly this integrity data? */
  type Decoder = (Integrity, Bytes) -> bool

  datatype State = Writing | Ready | Corrupt | DeletePending

  datatype Manifest = Manifest(key: string, integrity: Integrity, state: State)

  datatype Encoded = Encoded(integrity: Integrity, bytes: Bytes)

  type Collection = map<nat, Manifest>

  // ----- the stored operations, as functions -----

  predicate Has(ms: Collection, a: nat, state: State) {
    a in ms && ms[a].state == state
  }

  function SetState(ms: Collection, a: nat, from: State, to: State): Collection {
    if Has(ms, a, from) then ms[a := ms[a].(state := to)] else ms
  }

  predicate KeyTaken(ms: Collection, key: string) {
    exists a | a in ms :: ms[a].key == key
  }

  predicate Decodes(dec: Decoder, blobs: map<nat, Bytes>, a: nat, integrity: Integrity) {
    a in blobs && dec(integrity, blobs[a])
  }

  predicate Readable(dec: Decoder, ms: Collection, blobs: map<nat, Bytes>, a: nat) {
    a in ms && Decodes(dec, blobs, a, ms[a].integrity)
  }

  // ----- writing and reading, uninterrupted -----

  datatype Error = IdempotencyConflict | IsCorrupt | NotFound | WriteFailed

  /** What is stored: the manifests, the blobs, and the next id. */
  datatype Store = Store(manifests: Collection, blobs: map<nat, Bytes>, next: nat)

  /** The artifact whose manifest has the key. */
  ghost function Holder(ms: Collection, key: string): (a: nat)
    requires KeyTaken(ms, key)
    ensures a in ms && ms[a].key == key
  {
    var a :| a in ms && ms[a].key == key;
    a
  }

  ghost function KeyedArtifact(st: Store, key: string): nat {
    if KeyTaken(st.manifests, key) then Holder(st.manifests, key) else st.next
  }

  ghost function WithManifest(st: Store, key: string, e: Encoded): Store {
    if KeyTaken(st.manifests, key) then st
    else st.(manifests := st.manifests[st.next := Manifest(key, e.integrity, Writing)], next := st.next + 1)
  }

  /** A writing manifest's blob is put if absent and verified, and the manifest moved on. */
  function Published(dec: Decoder, st: Store, a: nat, bytes: Bytes): (Store, Result<nat, Error>)
    requires a in st.manifests
  {
    var blobs := if a in st.blobs then st.blobs else st.blobs[a := bytes];
    if dec(st.manifests[a].integrity, blobs[a])
    then (st.(blobs := blobs, manifests := SetState(st.manifests, a, Writing, Ready)), Ok(a))
    else (st.(blobs := blobs, manifests := SetState(st.manifests, a, Writing, Corrupt)), Err(IsCorrupt))
  }

  /** What a write does about the manifest it was given or loaded. */
  function Answer(dec: Decoder, st: Store, a: nat, e: Encoded): (Store, Result<nat, Error>)
    requires a in st.manifests
  {
    var m := st.manifests[a];
    if m.integrity.sha256 != e.integrity.sha256 then (st, Err(IdempotencyConflict))
    else
      match m.state
      case Corrupt => (st, Err(IsCorrupt))
      case DeletePending => (st, Err(NotFound))
      case Ready =>
        (st, if a !in st.blobs then Err(NotFound) else if dec(m.integrity, st.blobs[a]) then Ok(a) else Err(IsCorrupt))
      case Writing => Published(dec, st, a, e.bytes)
  }

  /** A whole write, uninterrupted. */
  ghost function WriteOf(dec: Decoder, st: Store, key: string, e: Encoded): (Store, Result<nat, Error>) {
    Answer(dec, WithManifest(st, key, e), KeyedArtifact(st, key), e)
  }

  /** A whole read: it gives the blob of a ready manifest, and marks one whose blob does not decode. */
  function ReadOf(dec: Decoder, st: Store, a: nat): (Store, Result<Bytes, Error>) {
    if a !in st.manifests then (st, Err(NotFound))
    else if st.manifests[a].state == Corrupt then (st, Err(IsCorrupt))
    else if st.manifests[a].state != Ready || a !in st.blobs then (st, Err(NotFound))
    else if dec(st.manifests[a].integrity, st.blobs[a]) then (st, Ok(st.blobs[a]))
    else (st.(manifests := SetState(st.manifests, a, Ready, Corrupt)), Err(IsCorrupt))
  }

  class ArtifactService {
    const decoder: Decoder
    var manifests: Collection
    var blobs: map<nat, Bytes>
    var next: nat

    ghost predicate Valid()
      reads this
    {
      && (forall a | a in manifests :: a < next)
      && (forall a | a in blobs :: a < next)
      && (forall a, b | a in manifests && b in manifests :: manifests[a].key == manifests[b].key ==> a == b)
    }

    ghost function Stored(): Store
      reads this
    {
      Store(manifests, blobs, next)
    }

    constructor (decoder: Decoder)
      ensures Valid() && manifests == map[] && blobs == map[] && this.decoder == decoder
    {
      this.decoder := decoder;
      manifests, blobs, next := map[], map[], 0;
    }

    /** Publication never overwrites: an existing blob stays. */
    method Put(a: nat, bytes: Bytes) returns (created: bool)
      requires Valid() && a < next
      modifies this
      ensures Valid() && manifests == old(manifests) && next == old(next)
      ensures created == (a !in old(blobs))
      ensures blobs == if created then old(blobs)[a := bytes] else old(blobs)
    {
      created := a !in blobs;
      if created {
        blobs := blobs[a := bytes];
      }
    }

    method UpdateState(a: nat, from: State, to: State) returns (modified: bool)
      requires Valid()
      modifies this
      ensures Valid() && blobs == old(blobs) && next == old(next)
      ensures manifests == SetState(old(manifests), a, from, to) && modified == Has(old(manifests), a, from)
    {
      modified := Has(manifests, a, from);
      if modified {
        manifests := manifests[a := manifests[a].(state := to)];
      }
    }

    method FindKey(key: string) returns (found: Option<nat>)
      ensures found.Some? ==> found.value in manifests && manifests[found.value].key == key
      ensures found == None ==> !KeyTaken(manifests, key)
    {
      var rest := manifests.Keys;
      while rest != {}
        invariant rest <= manifests.Keys
        invariant forall a | a in manifests && a !in rest :: manifests[a].key != key
      {
        var a :| a in rest;
        if manifests[a].key == key {
          return Some(a);
        }
        rest := rest - {a};
      }
      found := None;
    }

    method CreateOrLoadManifest(key: string, encoded: Encoded) returns (a: nat)
      requires Valid()
      modifies this
      ensures Valid() && blobs == old(blobs) && a in manifests && manifests[a].key == key
      ensures a == KeyedArtifact(old(Stored()), key) && Stored() == WithManifest(old(Stored()), key, encoded)
    {
      var existing := FindKey(key);
      if existing.Some? {
        return existing.value;
      }
      a := next;
      manifests, next := manifests[a := Manifest(key, encoded.integrity, Writing)], next + 1;
    }

    /** Putting the blob, verifying what is stored, and moving the manifest on. */
    method Publish(a: nat, bytes: Bytes) returns (result: Result<nat, Error>)
      requires Valid() && Has(manifests, a, Writing)
      modifies this
      ensures Valid() && (Stored(), result) == Published(decoder, old(Stored()), a, bytes)
    {
      var created := Put(a, bytes);
      if !decoder(manifests[a].integrity, blobs[a]) {
        var marked := UpdateState(a, Writing, Corrupt);
        return Err(IsCorrupt);
      }
      var promoted := UpdateState(a, Writing, Ready);
      return if promoted then Ok(a) else Err(WriteFailed);
    }

    /**
     A write that succeeds leaves one ready manifest under the key, with the content's digest and a
     blob that decodes; it changes no other artifact, and nothing at all when it was ready already.
     */
    method WriteEncoded(key: string, encoded: Encoded) returns (result: Result<nat, Error>)
      requires Valid()
      modifies this
      ensures Valid()
      ensures (Stored(), result) == WriteOf(decoder, old(Stored()), key, encoded)
      ensures result.Ok? ==>
                var a := result.value;
                && Readable(decoder, manifests, blobs, a) && manifests[a].state == Ready && manifests[a].key == key
                && manifests[a].integrity.sha256 == encoded.integrity.sha256
                && (Has(old(manifests), a, Ready) ==> manifests == old(manifests) && blobs == old(blobs))
      ensures forall b | b in old(manifests) && old(manifests)[b].key != key ::
                b in manifests && manifests[b] == old(manifests)[b]
      ensures forall b | b in old(blobs) :: b in blobs && blobs[b] == old(blobs)[b]
      ensures result.Err? ==>
                forall b | b in manifests && manifests[b].state == Ready :: b in old(manifests)
                    && manifests[b] == old(manifests)[b]
    {
      var a := CreateOrLoadManifest(key, encoded);
      var m := manifests[a];
      if m.integrity.sha256 != encoded.integrity.sha256 {
        return Err(IdempotencyConflict);
      }
      match m.state {
        case Corrupt => return Err(IsCorrupt);
        case DeletePending => return Err(NotFound);
        case Ready =>
          if a !in blobs {
            return Err(NotFound);
          }
          if !decoder(m.integrity, blobs[a]) {
            return Err(IsCorrupt);
          }
          return Ok(a);
        case Writing =>
      }
      result := Publish(a, encoded.bytes);
    }

    /** A read succeeds exactly on a ready manifest whose blob decodes, and marks one that does not. */
    method ReadManifest(a: nat) returns (result: Result<Bytes, Error>)
      requires Valid()
      modifies this
      ensures Valid() && (Stored(), result) == ReadOf(decoder, old(Stored()), a)
      ensures result.Ok? <==> Has(old(manifests), a, Ready) && Readable(decoder, old(manifests), blobs, a)
      ensures result.Ok? ==> result.value == blobs[a] && manifests == old(manifests)
      ensures result.Err? ==>
                manifests == if a in blobs then SetState(old(manifests), a, Ready, Corrupt) else old(manifests)
    {
      if a !in manifests {
        return Err(NotFound);
      }
      var m := manifests[a];
      if m.state == Corrupt {
        return Err(IsCorrupt);
      }
      if m.state != Ready || a !in blobs {
        return Err(NotFound);
      }
      if !decoder(m.integrity, blobs[a]) {
        var marked := UpdateState(a, Ready, Corrupt);
        return Err(IsCorrupt);
      }
      return Ok(blobs[a]);
    }
  }

  // ----- the interleaved system -----

  datatype Kind = SnapshotRef | CandidateRef | LeaseRef

  const KINDS: set<Kind> := {SnapshotRef, CandidateRef, LeaseRef}

  datatype Ref = Ref(id: nat, artifact: nat, kind: Kind)

  /** Where a worker stands. `m` is the manifest as it was read; `kinds` the collections asked so far. */
  datatype Pc =
    | Finding(key: string, encoded: Encoded)                             // the key was taken
    | Loaded(a: nat, m: Manifest, encoded: Encoded)
    | Verifying(a: nat, m: Manifest, encoded: Encoded, existed: bool)
    | Promoting(a: nat, m: Manifest, encoded: Encoded)
    | Confirming(a: nat, m: Manifest, encoded: Encoded)
    | Reading(a: nat, m: Manifest)
    | Inspecting(a: nat, m: Manifest)                                    // a reconciler on a stale writing manifest
    | Measured(a: nat, m: Manifest)
    | Repromoting(a: nat, m: Manifest)
    | Marking(a: nat, from: State)
    | Surveying(a: nat, kinds: set<Kind>, found: bool)                   // first reference check
    | Claiming(a: nat)
    | Rechecking(a: nat, kinds: set<Kind>, found: bool)                  // second one, after the claim
    | Restoring(a: nat)
    | Deleting(a: nat)
    | Removing(a: nat)

  /** A write that returned: the key it was for, the artifact it returned, and its digest. */
  datatype Returned = Returned(key: string, a: nat, sha256: string)

  /**
   `promoted` and `deleted` are the reconcilers' counters, summed; `published` counts the writers'
   promotions. The remaining fields are a record for the proof: what was ever readied, removed and
   deleted; the workers that met another one while deleting (`contested`), those whose artifact lost
   a reference since they began to delete it (`disturbed`), and the artifacts that a worker of both
   kinds restored or deleted (`raced`).
   */
  datatype System = System(
    manifests: Collection, blobs: map<nat, Bytes>, next: nat, refs: set<Ref>, nextRef: nat,
    workers: map<nat, Pc>, returned: set<Returned>, promoted: nat, published: nat, deleted: nat,
    readied: set<nat>, removed: set<nat>, blobDeleted: set<nat>,
    contested: set<nat>, disturbed: set<nat>, raced: set<nat>)

  datatype Step =
    | Create(w: nat, key: string, encoded: Encoded)
    | LoadKey(w: nat, a: nat)
    | VerifyReady(w: nat)
    | PutBlob(w: nat)
    | Verify(w: nat)
    | Promote(w: nat)
    | Confirm(w: nat)
    | Mark(w: nat)
    | OpenRead(w: nat, a: nat)
    | ReadBlob(w: nat)
    | Inspect(w: nat, a: nat)
    | Stat(w: nat)
    | Recheck(w: nat)
    | Repromote(w: nat)
    | Survey(w: nat, a: nat)
    | ReadKind(w: nat, kind: Kind)
    | Surveyed(w: nat)
    | ClaimDelete(w: nat)
    | Pend(w: nat, a: nat)
    | Rechecked(w: nat)
    | Restore(w: nat)
    | DeleteBlob(w: nat)
    | Remove(w: nat)
    | AddRef(a: nat, kind: Kind)
    | DropRef(ref: Ref)
    | Crash(w: nat)

  predicate Enabled(s: System, step: Step) {
    match step
    case Create(w, key, encoded) => w !in s.workers
    case LoadKey(w, a) =>
      w in s.workers && s.workers[w].Finding? && a in s.manifests && s.manifests[a].key == s.workers[w].key
    case VerifyReady(w) =>
      w in s.workers && s.workers[w].Loaded? && s.workers[w].m.state == Ready && SameDigest(s.workers[w])
    case PutBlob(w) =>
      w in s.workers && s.workers[w].Loaded? && s.workers[w].m.state == Writing && SameDigest(s.workers[w])
    case Verify(w) => w in s.workers && s.workers[w].Verifying?
    case Promote(w) => w in s.workers && s.workers[w].Promoting?
    case Confirm(w) => w in s.workers && s.workers[w].Confirming?
    case Mark(w) => w in s.workers && s.workers[w].Marking?
    case OpenRead(w, a) => w !in s.workers && Has(s.manifests, a, Ready)
    case ReadBlob(w) => w in s.workers && s.workers[w].Reading?
    case Inspect(w, a) => w !in s.workers && Has(s.manifests, a, Writing)
    case Stat(w) => w in s.workers && s.workers[w].Inspecting?
    case Recheck(w) => w in s.workers && s.workers[w].Measured?
    case Repromote(w) => w in s.workers && s.workers[w].Repromoting?
    case Survey(w, a) => w !in s.workers && Has(s.manifests, a, Ready)
    case ReadKind(w, kind) => w in s.workers && (s.workers[w].Surveying? || s.workers[w].Rechecking?)
    case Surveyed(w) => w in s.workers && s.workers[w].Surveying? && s.workers[w].kinds == KINDS
    case ClaimDelete(w) => w in s.workers && s.workers[w].Claiming?
    case Pend(w, a) => w !in s.workers && Has(s.manifests, a, DeletePending)
    case Rechecked(w) => w in s.workers && s.workers[w].Rechecking? && s.workers[w].kinds == KINDS
    case Restore(w) => w in s.workers && s.workers[w].Restoring?
    case DeleteBlob(w) => w in s.workers && s.workers[w].Deleting?
    case Remove(w) => w in s.workers && s.workers[w].Removing?
    case AddRef(a, kind) => Has(s.manifests, a, Ready)
    case DropRef(ref) => ref in s.refs
    case Crash(w) => w in s.workers
  }

  /** The stored digest is the writer's; any other key holder is turned away. */
  predicate SameDigest(pc: Pc)
    requires pc.Loaded?
  {
    pc.m.integrity.sha256 == pc.encoded.integrity.sha256
  }

  predicate Deleter(pc: Pc) {
    pc.Rechecking? || pc.Restoring? || pc.Deleting? || pc.Removing?
  }

  predicate DeletesAt(pc: Pc, a: nat) {
    Deleter(pc) && pc.a == a
  }

  function Deleters(s: System, a: nat): set<nat> {
    set w | w in s.workers && DeletesAt(s.workers[w], a)
  }

  predicate HasRef(s: System, a: nat, kind: Kind) {
    exists r | r in s.refs :: r.artifact == a && r.kind == kind
  }

  /** The worker a step is for; steps on references have none. */
  function Mover(step: Step): Option<nat> {
    match step
    case AddRef(_, _) => None
    case DropRef(_) => None
    case _ => Some(step.w)
  }

  function Answered(s: System, m: Manifest, a: nat): System {
    s.(returned := s.returned + {Returned(m.key, a, m.integrity.sha256)})
  }

  /** Another worker turns to deleting `a`: if others are at it, all of them are contested. */
  function Joined(s: System, w: nat, a: nat): System {
    var others := Deleters(s, a);
    s.(contested := if others == {} then s.contested - {w} else s.contested + others + {w},
       disturbed := s.disturbed - {w})
  }

  /** The worker acts on what it read of `a`: if that may be out of date, the artifact is raced. */
  function Acting(s: System, w: nat, a: nat): System {
    if w in s.contested && w in s.disturbed then s.(raced := s.raced + {a}) else s
  }

  /** What publishing, answering and marking do to everything but the workers. */
  function WriteEffect(dec: Decoder, s: System, step: Step): (t: System)
    requires Enabled(s, step)
    ensures t.refs == s.refs && t.blobDeleted == s.blobDeleted && t.removed == s.removed && t.deleted == s.deleted
    ensures t.contested == s.contested && t.disturbed == s.disturbed && t.raced == s.raced
  {
    match step
    case Create(w, key, e) =>
      if KeyTaken(s.manifests, key) then s
      else s.(manifests := s.manifests[s.next := Manifest(key, e.integrity, Writing)], next := s.next + 1)
    case VerifyReady(w) =>
      var pc := s.workers[w];
      if Decodes(dec, s.blobs, pc.a, pc.m.integrity) then Answered(s, pc.m, pc.a) else s
    case PutBlob(w) =>
      var pc := s.workers[w];
      if pc.a in s.blobs then s else s.(blobs := s.blobs[pc.a := pc.encoded.bytes])
    case Promote(w) =>
      var pc := s.workers[w];
      if Has(s.manifests, pc.a, Writing) then
        Answered(s.(manifests := SetState(s.manifests, pc.a, Writing, Ready), readied := s.readied + {pc.a},
                    published := s.published + 1), pc.m, pc.a)
      else s
    case Confirm(w) =>
      var pc := s.workers[w];
      if Has(s.manifests, pc.a, Ready) && s.manifests[pc.a].integrity.sha256 == pc.encoded.integrity.sha256
      then Answered(s, pc.m, pc.a) else s
    case Mark(w) => s.(manifests := SetState(s.manifests, s.workers[w].a, s.workers[w].from, Corrupt))
    case Repromote(w) =>
      var a := s.workers[w].a;
      if Has(s.manifests, a, Writing) then
        s.(manifests := SetState(s.manifests, a, Writing, Ready), readied := s.readied + {a},
           promoted := s.promoted + 1)
      else s
    case _ => s
  }

  /** What deleting does, and references coming and going. */
  function DeletionEffect(s: System, step: Step): (t: System)
    requires Enabled(s, step)
    ensures t.next == s.next && t.returned == s.returned && s.raced <= t.raced
    ensures t.readied == s.readied && t.promoted == s.promoted && t.published == s.published
  {
    match step
    case ClaimDelete(w) =>
      var a := s.workers[w].a;
      if Has(s.manifests, a, Ready) then Joined(s.(manifests := SetState(s.manifests, a, Ready, DeletePending)), w, a)
      else s
    case Pend(w, a) => Joined(s, w, a)
    case Restore(w) =>
      var a := s.workers[w].a;
      Acting(s, w, a).(manifests := SetState(s.manifests, a, DeletePending, Ready))
    case DeleteBlob(w) =>
      var a := s.workers[w].a;
      Acting(s, w, a).(blobs := s.blobs - {a}, blobDeleted := s.blobDeleted + {a})
    case Remove(w) =>
      var a := s.workers[w].a;
      if Has(s.manifests, a, DeletePending)
      then s.(manifests := s.manifests - {a}, removed := s.removed + {a}, deleted := s.deleted + 1)
      else s
    case AddRef(a, kind) => s.(refs := s.refs + {Ref(s.nextRef, a, kind)}, nextRef := s.nextRef + 1)
    case DropRef(ref) => s.(refs := s.refs - {ref}, disturbed := s.disturbed + Deleters(s, ref.artifact))
    case _ => s
  }

  predicate Writes(step: Step) {
    step.Create? || step.VerifyReady? || step.PutBlob? || step.Promote? || step.Confirm? || step.Mark?
        || step.Repromote?
  }

  function Effect(dec: Decoder, s: System, step: Step): System
    requires Enabled(s, step)
  {
    if Writes(step) then WriteEffect(dec, s, step) else DeletionEffect(s, step)
  }

  /** Where a step of a writer or reader leaves it; nowhere when it is done. */
  function UserMoved(dec: Decoder, s: System, step: Step): Option<Pc>
    requires Enabled(s, step)
  {
    match step
    case Create(_, key, e) =>
      Some(if KeyTaken(s.manifests, key) then Finding(key, e)
           else Loaded(s.next, Manifest(key, e.integrity, Writing), e))
    case LoadKey(w, a) => Some(Loaded(a, s.manifests[a], s.workers[w].encoded))
    case PutBlob(w) =>
      var pc := s.workers[w];
      Some(Verifying(pc.a, pc.m, pc.encoded, pc.a in s.blobs))
    case Verify(w) =>
      var pc := s.workers[w];
      if pc.a !in s.blobs then None
      else if !dec(pc.m.integrity, s.blobs[pc.a]) then Some(Marking(pc.a, Writing))
      else if pc.existed then Some(pc.(existed := false))
      else Some(Promoting(pc.a, pc.m, pc.encoded))
    case Promote(w) =>
      var pc := s.workers[w];
      if Has(s.manifests, pc.a, Writing) then None else Some(Confirming(pc.a, pc.m, pc.encoded))
    case OpenRead(_, a) => Some(Reading(a, s.manifests[a]))
    case ReadBlob(w) =>
      var pc := s.workers[w];
      if pc.a in s.blobs && !dec(pc.m.integrity, s.blobs[pc.a]) then Some(Marking(pc.a, Ready)) else None
    case _ => None
  }

  /** Where a step of a reconciler leaves it. */
  function ReconcilerMoved(dec: Decoder, s: System, step: Step): Option<Pc>
    requires Enabled(s, step)
  {
    match step
    case Inspect(_, a) => Some(Inspecting(a, s.manifests[a]))
    case Stat(w) =>
      var pc := s.workers[w];
      Some(if pc.a in s.blobs && |s.blobs[pc.a]| == pc.m.integrity.compressedBytes then Measured(pc.a, pc.m)
           else Marking(pc.a, Writing))
    case Recheck(w) =>
      var pc := s.workers[w];
      Some(if Decodes(dec, s.blobs, pc.a, pc.m.integrity) then Repromoting(pc.a, pc.m) else Marking(pc.a, Writing))
    case Survey(_, a) => Some(Surveying(a, {}, false))
    case ReadKind(w, kind) =>
      var pc := s.workers[w];
      Some(pc.(kinds := pc.kinds + {kind}, found := pc.found || HasRef(s, pc.a, kind)))
    case Surveyed(w) => if s.workers[w].found then None else Some(Claiming(s.workers[w].a))
    case ClaimDelete(w) =>
      var a := s.workers[w].a;
      if Has(s.manifests, a, Ready) then Some(Rechecking(a, {}, false)) else None
    case Pend(_, a) => Some(Rechecking(a, {}, false))
    case Rechecked(w) =>
      var a := s.workers[w].a;
      Some(if s.workers[w].found then Restoring(a) else Deleting(a))
    case DeleteBlob(w) => Some(Removing(s.workers[w].a))
    case _ => None
  }

  predicate UserStep(step: Step) {
    step.Create? || step.LoadKey? || step.PutBlob? || step.Verify? || step.Promote? || step.OpenRead? || step.ReadBlob?
  }

  function Moved(dec: Decoder, s: System, step: Step): Option<Pc>
    requires Enabled(s, step)
  {
    if UserStep(step) then UserMoved(dec, s, step) else ReconcilerMoved(dec, s, step)
  }

  function MoveTo(workers: map<nat, Pc>, w: nat, pc: Option<Pc>): map<nat, Pc> {
    match pc
    case None => workers - {w}
    case Some(x) => workers[w := x]
  }

  function Next(dec: Decoder, s: System, step: Step): System
    requires Enabled(s, step)
  {
    var t := Effect(dec, s, step);
    match Mover(step)
    case None => t
    case Some(w) => t.(workers := MoveTo(s.workers, w, Moved(dec, s, step)))
  }

  // ----- the invariant -----

  predicate Live(s: System, a: nat) {
    Has(s.manifests, a, Ready) || Has(s.manifests, a, DeletePending)
  }

  predicate Referenced(s: System, a: nat) {
    exists r | r in s.refs :: r.artifact == a
  }

  /** While the manifest is stored it is the one that was read, but for its state. */
  predicate SameManifest(s: System, a: nat, m: Manifest) {
    a in s.manifests ==> s.manifests[a].key == m.key && s.manifests[a].integrity == m.integrity
  }

  ghost predicate ArtifactValid(dec: Decoder, s: System, a: nat) {
    && (a in s.manifests || a in s.blobs || a in s.readied ==> a < s.next)
    && (a in s.manifests ==> (s.manifests[a].state == Writing ==> a !in s.readied) && (Live(s, a) ==> a in s.readied))
    && (a in s.readied && a !in s.blobDeleted ==> Live(s, a) && Readable(dec, s.manifests, s.blobs, a))
    && (a in s.blobDeleted ==> a in s.readied)
    && (a in s.removed ==> a in s.blobDeleted && a !in s.manifests)
    && (Referenced(s, a) ==> a in s.readied)
  }

  ghost predicate PcValid(dec: Decoder, s: System, pc: Pc) {
    match pc
    case Finding(_, _) => true
    case Loaded(a, m, _) => a < s.next && SameManifest(s, a, m) && (m.state == Ready ==> a in s.readied)
    case Verifying(a, m, e, _) => a < s.next && SameManifest(s, a, m) && m.integrity.sha256 == e.integrity.sha256
    case Promoting(a, m, e) =>
      && a < s.next && SameManifest(s, a, m) && m.integrity.sha256 == e.integrity.sha256
      && (Has(s.manifests, a, Writing) ==> Readable(dec, s.manifests, s.blobs, a))
    case Confirming(a, m, e) => a < s.next && SameManifest(s, a, m) && m.integrity.sha256 == e.integrity.sha256
    case Reading(a, m) => a in s.readied && SameManifest(s, a, m)
    case Inspecting(a, m) => a < s.next && SameManifest(s, a, m)
    case Measured(a, m) => a < s.next && SameManifest(s, a, m)
    case Repromoting(a, m) =>
      a < s.next && SameManifest(s, a, m) && (Has(s.manifests, a, Writing) ==> Readable(dec, s.manifests, s.blobs, a))
    case Marking(a, from) => a < s.next && from in {Writing, Ready} && (from == Ready ==> a in s.blobDeleted)
    case Surveying(a, _, _) => a < s.next
    case Claiming(a) => a < s.next
    case Removing(a) => a in s.blobDeleted && a in s.readied
    case _ => pc.a in s.readied
  }

  ghost predicate ReturnedValid(s: System, r: Returned) {
    && r.a in s.readied
    && (r.a in s.manifests ==> s.manifests[r.a].key == r.key && s.manifests[r.a].integrity.sha256 == r.sha256)
  }

  ghost predicate KeysUnique(ms: Collection) {
    forall a, b | a in ms && b in ms && ms[a].key == ms[b].key :: a == b
  }

  ghost predicate Inv(dec: Decoder, s: System) {
    && (forall a: nat :: ArtifactValid(dec, s, a))
    && KeysUnique(s.manifests)
    && (forall w | w in s.workers :: PcValid(dec, s, s.workers[w]))
    && (forall r | r in s.returned :: ReturnedValid(s, r))
    && |s.readied| == s.promoted + s.published && |s.removed| == s.deleted
  }

  /** What never changes back: ids and digests are given out once, and readied stays readied. */
  ghost predicate Follows(s: System, t: System, a: nat) {
    && s.next <= t.next
    && (a in s.readied ==> a in t.readied) && (a in s.blobDeleted ==> a in t.blobDeleted)
    && (a in t.blobDeleted ==> a in s.blobDeleted || a in s.readied)
    && (a < s.next && a in t.manifests ==>
          && a in s.manifests && t.manifests[a].key == s.manifests[a].key
          && t.manifests[a].integrity == s.manifests[a].integrity
          && (t.manifests[a].state == Writing ==> s.manifests[a].state == Writing))
    && (a in s.blobs && a !in t.blobDeleted ==> a in t.blobs && t.blobs[a] == s.blobs[a])
  }

  /** A step changes the workers in one place only. */
  lemma StepMovesOne(dec: Decoder, s: System, step: Step)
    requires Enabled(s, step)
    ensures var t := Next(dec, s, step);
            && t == Effect(dec, s, step).(workers := t.workers)
            && (Mover(step).Some? ==> t.workers == MoveTo(s.workers, step.w, Moved(dec, s, step)))
            && (forall w | Mover(step) != Some(w) ::
                  (w in t.workers <==> w in s.workers) && (w in s.workers ==> t.workers[w] == s.workers[w]))
            && (Mover(step).Some? ==>
                  if Moved(dec, s, step).Some?
                  then step.w in t.workers && t.workers[step.w] == Moved(dec, s, step).value
                  else step.w !in t.workers)
  {
  }

  lemma WriteEffectFollows(dec: Decoder, s: System, step: Step, a: nat)
    requires Enabled(s, step) && Writes(step)
    requires step.DeleteBlob? ==> s.workers[step.w].a in s.readied
    ensures Follows(s, Effect(dec, s, step), a)
  {
  }

  lemma DeletionEffectFollows(dec: Decoder, s: System, step: Step, a: nat)
    requires Enabled(s, step) && !Writes(step)
    requires step.DeleteBlob? ==> s.workers[step.w].a in s.readied
    ensures Follows(s, Effect(dec, s, step), a)
  {
  }

  lemma EffectFollows(dec: Decoder, s: System, step: Step, a: nat)
    requires Enabled(s, step)
    requires step.DeleteBlob? ==> s.workers[step.w].a in s.readied
    ensures Follows(s, Effect(dec, s, step), a)
  {
    if Writes(step) {
      WriteEffectFollows(dec, s, step, a);
    } else {
      DeletionEffectFollows(dec, s, step, a);
    }
  }

  lemma StepFollows(dec: Decoder, s: System, step: Step, a: nat)
    requires Enabled(s, step)
    requires step.DeleteBlob? ==> s.workers[step.w].a in s.readied
    ensures Follows(s, Next(dec, s, step), a)
  {
    StepMovesOne(dec, s, step);
    EffectFollows(dec, s, step, a);
  }

  lemma PcStaysValid(dec: Decoder, s: System, t: System, pc: Pc)
    requires PcValid(dec, s, pc) && (pc.Finding? || (Follows(s, t, pc.a) && ArtifactValid(dec, s, pc.a)))
    ensures PcValid(dec, t, pc)
  {
  }

  lemma WriteEffectKeepsArtifact(dec: Decoder, s: System, step: Step, a: nat)
    requires Enabled(s, step) && Writes(step) && ArtifactValid(dec, s, a)
    requires Mover(step).Some? && step.w in s.workers ==> PcValid(dec, s, s.workers[step.w])
    ensures ArtifactValid(dec, Effect(dec, s, step), a)
  {
  }

  lemma DeletionEffectKeepsArtifact(dec: Decoder, s: System, step: Step, a: nat)
    requires Enabled(s, step) && !Writes(step) && ArtifactValid(dec, s, a)
    requires Mover(step).Some? && step.w in s.workers ==> PcValid(dec, s, s.workers[step.w])
    ensures ArtifactValid(dec, Effect(dec, s, step), a)
  {
  }

  lemma EffectKeepsArtifact(dec: Decoder, s: System, step: Step, a: nat)
    requires Enabled(s, step) && ArtifactValid(dec, s, a)
    requires Mover(step).Some? && step.w in s.workers ==> PcValid(dec, s, s.workers[step.w])
    ensures ArtifactValid(dec, Effect(dec, s, step), a)
  {
    if Writes(step) {
      WriteEffectKeepsArtifact(dec, s, step, a);
    } else {
      DeletionEffectKeepsArtifact(dec, s, step, a);
    }
  }

  lemma StepKeepsArtifact(dec: Decoder, s: System, step: Step, a: nat)
    requires Inv(dec, s) && Enabled(s, step)
    ensures ArtifactValid(dec, Next(dec, s, step), a)
  {
    assert ArtifactValid(dec, s, a);
    assert Mover(step).Some? && step.w in s.workers ==> PcValid(dec, s, s.workers[step.w]);
    EffectKeepsArtifact(dec, s, step, a);
    StepMovesOne(dec, s, step);
  }

  lemma UserStaysValid(dec: Decoder, s: System, step: Step, a: nat)
    requires Enabled(s, step) && UserStep(step) && Moved(dec, s, step).Some?
    requires step.w in s.workers ==> PcValid(dec, s, s.workers[step.w])
    requires Moved(dec, s, step).value.Finding? || (Moved(dec, s, step).value.a == a && ArtifactValid(dec, s, a))
    ensures PcValid(dec, Effect(dec, s, step), Moved(dec, s, step).value)
  {
  }

  lemma InspectorStaysValid(dec: Decoder, s: System, step: Step, a: nat)
    requires Enabled(s, step) && (step.Inspect? || step.Stat? || step.Recheck?) && Mover(step).Some?
             && Moved(dec, s, step).Some?
    requires step.w in s.workers ==> PcValid(dec, s, s.workers[step.w])
    requires Moved(dec, s, step).value.Finding? || (Moved(dec, s, step).value.a == a && ArtifactValid(dec, s, a))
    ensures PcValid(dec, Effect(dec, s, step), Moved(dec, s, step).value)
  {
  }

  lemma DeleterStaysValid(dec: Decoder, s: System, step: Step, a: nat)
    requires Enabled(s, step) && !UserStep(step) && !(step.Inspect? || step.Stat? || step.Recheck?)
             && Mover(step).Some? && Moved(dec, s, step).Some?
    requires step.w in s.workers ==> PcValid(dec, s, s.workers[step.w])
    requires Moved(dec, s, step).value.Finding? || (Moved(dec, s, step).value.a == a && ArtifactValid(dec, s, a))
    ensures PcValid(dec, Effect(dec, s, step), Moved(dec, s, step).value)
  {
  }

  lemma ReconcilerStaysValid(dec: Decoder, s: System, step: Step, a: nat)
    requires Enabled(s, step) && !UserStep(step) && Mover(step).Some? && Moved(dec, s, step).Some?
    requires step.w in s.workers ==> PcValid(dec, s, s.workers[step.w])
    requires Moved(dec, s, step).value.Finding? || (Moved(dec, s, step).value.a == a && ArtifactValid(dec, s, a))
    ensures PcValid(dec, Effect(dec, s, step), Moved(dec, s, step).value)
  {
    if step.Inspect? || step.Stat? || step.Recheck? {
      InspectorStaysValid(dec, s, step, a);
    } else {
      DeleterStaysValid(dec, s, step, a);
    }
  }

  lemma MoverStaysValid(dec: Decoder, s: System, step: Step)
    requires Inv(dec, s) && Enabled(s, step) && Mover(step).Some? && Moved(dec, s, step).Some?
    ensures PcValid(dec, Effect(dec, s, step), Moved(dec, s, step).value)
  {
    assert step.w in s.workers ==> PcValid(dec, s, s.workers[step.w]);
    var pc := Moved(dec, s, step).value;
    var a := if pc.Finding? then 0 else pc.a;
    assert ArtifactValid(dec, s, a);
    if UserStep(step) {
      UserStaysValid(dec, s, step, a);
    } else {
      ReconcilerStaysValid(dec, s, step, a);
    }
  }

  lemma StepKeepsWorkers(dec: Decoder, s: System, step: Step)
    requires Inv(dec, s) && Enabled(s, step)
    ensures var t := Next(dec, s, step); forall w | w in t.workers :: PcValid(dec, t, t.workers[w])
  {
    var t := Next(dec, s, step);
    StepMovesOne(dec, s, step);
    forall w | w in t.workers ensures PcValid(dec, t, t.workers[w]) {
      if Mover(step) == Some(w) {
        MoverStaysValid(dec, s, step);
      } else {
        OtherStaysValid(dec, s, step, w);
      }
    }
  }

  lemma OtherStaysValid(dec: Decoder, s: System, step: Step, w: nat)
    requires Inv(dec, s) && Enabled(s, step) && w in s.workers
    ensures PcValid(dec, Next(dec, s, step), s.workers[w])
  {
    var pc := s.workers[w];
    assert PcValid(dec, s, pc);
    assert step.DeleteBlob? ==> PcValid(dec, s, s.workers[step.w]);
    if !pc.Finding? {
      assert ArtifactValid(dec, s, pc.a);
      StepFollows(dec, s, step, pc.a);
    }
    PcStaysValid(dec, s, Next(dec, s, step), pc);
  }

  lemma StepKeepsKeys(dec: Decoder, s: System, step: Step)
    requires Enabled(s, step) && KeysUnique(s.manifests)
    ensures KeysUnique(Next(dec, s, step).manifests)
  {
    StepMovesOne(dec, s, step);
    EffectKeepsKeys(dec, s, step);
  }

  lemma EffectKeepsKeys(dec: Decoder, s: System, step: Step)
    requires Enabled(s, step) && KeysUnique(s.manifests)
    ensures KeysUnique(Effect(dec, s, step).manifests)
  {
    if !Writes(step) {
      DeletionHasNoNewKeys(s, step);
    } else if !step.Create? {
      NoNewKeys(dec, s, step);
    }
  }

  lemma DeletionHasNoNewKeys(s: System, step: Step)
    requires Enabled(s, step) && !Writes(step)
    ensures var ms := DeletionEffect(s, step).manifests;
            forall a | a in ms :: a in s.manifests && ms[a].key == s.manifests[a].key
  {
  }

  lemma NoNewKeys(dec: Decoder, s: System, step: Step)
    requires Enabled(s, step) && Writes(step) && !step.Create?
    ensures var ms := WriteEffect(dec, s, step).manifests;
            forall a | a in ms :: a in s.manifests && ms[a].key == s.manifests[a].key
  {
  }

  lemma ReturnedStays(dec: Decoder, s: System, step: Step, r: Returned)
    requires Inv(dec, s) && Enabled(s, step) && r in s.returned
    ensures ReturnedValid(Next(dec, s, step), r)
  {
    assert ReturnedValid(s, r) && ArtifactValid(dec, s, r.a);
    if step.DeleteBlob? {
      assert PcValid(dec, s, s.workers[step.w]);
    }
    StepFollows(dec, s, step, r.a);
  }

  lemma NewReturn(dec: Decoder, s: System, step: Step, r: Returned)
    requires Enabled(s, step) && r in Effect(dec, s, step).returned && r !in s.returned
    ensures step.VerifyReady? || step.Promote? || step.Confirm?
    ensures var pc := s.workers[step.w]; r == Returned(pc.m.key, pc.a, pc.m.integrity.sha256)
    ensures step.Promote? ==> r.a in Effect(dec, s, step).readied
    ensures step.Confirm? ==> Has(s.manifests, r.a, Ready)
  {
  }

  lemma NewReturnIsValid(dec: Decoder, s: System, step: Step, r: Returned)
    requires Enabled(s, step) && r in Effect(dec, s, step).returned && r !in s.returned
    requires ArtifactValid(dec, s, r.a) && (step.w in s.workers ==> PcValid(dec, s, s.workers[step.w]))
    ensures ReturnedValid(Effect(dec, s, step), r)
  {
    NewReturn(dec, s, step, r);
    EffectFollows(dec, s, step, r.a);
  }

  lemma StepKeepsReturned(dec: Decoder, s: System, step: Step)
    requires Inv(dec, s) && Enabled(s, step)
    ensures var t := Next(dec, s, step); forall r | r in t.returned :: ReturnedValid(t, r)
  {
    var t := Next(dec, s, step);
    StepMovesOne(dec, s, step);
    forall r | r in t.returned ensures ReturnedValid(t, r) {
      if r in s.returned {
        ReturnedStays(dec, s, step, r);
      } else {
        NewReturn(dec, s, step, r);
        assert ArtifactValid(dec, s, r.a) && PcValid(dec, s, s.workers[step.w]);
        NewReturnIsValid(dec, s, step, r);
      }
    }
  }

  lemma StepKeepsCounts(dec: Decoder, s: System, step: Step)
    requires Inv(dec, s) && Enabled(s, step)
    ensures var t := Next(dec, s, step);
            |t.readied| == t.promoted + t.published && |t.removed| == t.deleted
  {
    StepMovesOne(dec, s, step);
    if step.Promote? || step.Repromote? || step.Remove? {
      EffectKeepsCounts(dec, s, step, s.workers[step.w].a);
    } else {
      OthersCountNothing(dec, s, step);
    }
  }

  lemma OthersCountNothing(dec: Decoder, s: System, step: Step)
    requires Enabled(s, step) && !step.Promote? && !step.Repromote? && !step.Remove?
    ensures var t := Effect(dec, s, step);
            && t.readied == s.readied && t.promoted == s.promoted && t.published == s.published
            && t.removed == s.removed && t.deleted == s.deleted
  {
    if Writes(step) {
      WritesCountNothing(dec, s, step);
    } else {
      DeletionsCountNothing(s, step);
    }
  }

  lemma WritesCountNothing(dec: Decoder, s: System, step: Step)
    requires Enabled(s, step) && Writes(step) && !step.Promote? && !step.Repromote?
    ensures var t := WriteEffect(dec, s, step);
            t.readied == s.readied && t.promoted == s.promoted && t.published == s.published
  {
  }

  lemma DeletionsCountNothing(s: System, step: Step)
    requires Enabled(s, step) && !Writes(step) && !step.Remove?
    ensures DeletionEffect(s, step).removed == s.removed && DeletionEffect(s, step).deleted == s.deleted
  {
  }

  lemma EffectKeepsCounts(dec: Decoder, s: System, step: Step, a: nat)
    requires Inv(dec, s) && Enabled(s, step) && (step.Promote? || step.Repromote? || step.Remove?)
    requires a == s.workers[step.w].a
    ensures var t := Effect(dec, s, step);
            |t.readied| == t.promoted + t.published && |t.removed| == t.deleted
  {
    assert ArtifactValid(dec, s, a);
  }

  lemma StepKeepsInv(dec: Decoder, s: System, step: Step)
    requires Inv(dec, s) && Enabled(s, step)
    ensures Inv(dec, Next(dec, s, step))
  {
    forall a: nat ensures ArtifactValid(dec, Next(dec, s, step), a) {
      StepKeepsArtifact(dec, s, step, a);
    }
    StepKeepsKeys(dec, s, step);
    StepKeepsWorkers(dec, s, step);
    StepKeepsReturned(dec, s, step);
    StepKeepsCounts(dec, s, step);
  }

  // ----- deletion -----

  /** What a deleter has read, or decided, is so: none of its reads missed a reference. */
  ghost predicate Informed(s: System, pc: Pc)
    requires Deleter(pc)
  {
    match pc
    case Rechecking(a, kinds, found) =>
      (found ==> a !in s.blobDeleted) && (!found ==> forall r | r in s.refs && r.artifact == a :: r.kind !in kinds)
    case Restoring(a) => a !in s.blobDeleted
    case _ => !Referenced(s, pc.a)
  }

  /** The artifact waits for this worker alone, and what it has read is so. */
  ghost predicate SoleDeleter(s: System, w: nat)
    requires w in s.workers && Deleter(s.workers[w])
  {
    var pc := s.workers[w];
    && Has(s.manifests, pc.a, DeletePending)
    && (forall v | v in s.workers && DeletesAt(s.workers[v], pc.a) :: v == w)
    && Informed(s, pc)
  }

  /** Gone, or going: nothing refers to the artifact and it is not ready. */
  ghost predicate Forsaken(s: System, a: nat) {
    !Referenced(s, a) && !Has(s.manifests, a, Ready)
  }

  /** While no reference goes: what this recheck has missed so far, it will still find. */
  ghost predicate Patient(s: System, pc: Pc)
    requires Deleter(pc)
  {
    match pc
    case Rechecking(a, kinds, found) =>
      if found then Referenced(s, a)
      else
        || ((forall r | r in s.refs && r.artifact == a :: r.kind !in kinds) && !Has(s.manifests, a, Ready))
        || (exists r | r in s.refs :: r.artifact == a && r.kind !in kinds)
    case Restoring(a) => Referenced(s, a)
    case _ => Forsaken(s, pc.a)
  }

  /** A worker that met no other, or saw no reference go, acts on what is still so. */
  ghost predicate Trusted(s: System, w: nat)
    requires w in s.workers && Deleter(s.workers[w])
  {
    && (w !in s.contested ==> SoleDeleter(s, w))
    && (w !in s.disturbed ==> Patient(s, s.workers[w]))
  }

  ghost predicate Guarded(s: System, a: nat) {
    a !in s.raced ==>
      && (a in s.blobDeleted ==> Forsaken(s, a))
      && forall w | w in s.workers && DeletesAt(s.workers[w], a) :: Trusted(s, w)
  }

  ghost predicate Safe(dec: Decoder, s: System) {
    Inv(dec, s) && forall a: nat :: Guarded(s, a)
  }

  /** The records only grow while a worker is deleting. */
  lemma RecordsGrow(dec: Decoder, s: System, step: Step, w: nat)
    requires Enabled(s, step) && w in s.workers && Mover(step) != Some(w)
    ensures var t := Effect(dec, s, step);
            && (w in s.contested ==> w in t.contested) && (w in s.disturbed ==> w in t.disturbed)
  {
    if !Writes(step) {
      DeletionRecords(s, step, w);
    }
  }

  lemma DeletionRecords(s: System, step: Step, w: nat)
    requires Enabled(s, step) && !Writes(step) && w in s.workers && Mover(step) != Some(w)
    ensures var t := DeletionEffect(s, step);
            (w in s.contested ==> w in t.contested) && (w in s.disturbed ==> w in t.disturbed)
  {
  }

  /** References are only added while the manifest is ready, and only go by being dropped. */
  lemma RefsChange(dec: Decoder, s: System, step: Step, a: nat)
    requires Enabled(s, step)
    ensures var t := Effect(dec, s, step);
            && (forall r | r in t.refs && r.artifact == a :: r in s.refs || Has(s.manifests, a, Ready))
            && (!step.DropRef? ==> s.refs <= t.refs)
  {
  }

  /** Whoever is deleting the artifact notices when a reference of it goes. */
  lemma RefsStay(dec: Decoder, s: System, step: Step, w: nat, a: nat)
    requires Enabled(s, step) && w in s.workers && DeletesAt(s.workers[w], a)
    requires w !in Effect(dec, s, step).disturbed && Mover(step) != Some(w)
    ensures var t := Effect(dec, s, step); forall r | r in s.refs && r.artifact == a :: r in t.refs
  {
    assert w in Deleters(s, a);
  }

  /** Once readied, a manifest only becomes ready again by a restore. */
  lemma OnlyRestoreReadies(dec: Decoder, s: System, step: Step, a: nat)
    requires Enabled(s, step) && ArtifactValid(dec, s, a) && a in s.readied
    requires Has(Effect(dec, s, step).manifests, a, Ready) && !Has(s.manifests, a, Ready)
    ensures step.Restore? && s.workers[step.w].a == a
  {
    if Writes(step) {
      WritesReadyNothingAgain(dec, s, step, a);
    } else {
      DeletionsOnlyRestore(s, step, a);
    }
  }

  lemma WritesReadyNothingAgain(dec: Decoder, s: System, step: Step, a: nat)
    requires Enabled(s, step) && Writes(step) && ArtifactValid(dec, s, a) && a in s.readied
             && !Has(s.manifests, a, Ready)
    ensures !Has(WriteEffect(dec, s, step).manifests, a, Ready)
  {
  }

  lemma DeletionsOnlyRestore(s: System, step: Step, a: nat)
    requires Enabled(s, step) && !Writes(step) && !Has(s.manifests, a, Ready)
    requires Has(DeletionEffect(s, step).manifests, a, Ready)
    ensures step.Restore? && s.workers[step.w].a == a
  {
  }

  lemma ForsakenStays(dec: Decoder, s: System, step: Step, a: nat)
    requires Enabled(s, step) && ArtifactValid(dec, s, a) && a in s.readied && Forsaken(s, a)
    requires step.Restore? ==> s.workers[step.w].a != a
    ensures Forsaken(Effect(dec, s, step), a)
  {
    RefsChange(dec, s, step, a);
    var t := Effect(dec, s, step);
    if Has(t.manifests, a, Ready) {
      OnlyRestoreReadies(dec, s, step, a);
    }
  }

  lemma PatientStays(dec: Decoder, s: System, step: Step, pc: Pc)
    requires Enabled(s, step) && Deleter(pc) && Patient(s, pc)
    requires ArtifactValid(dec, s, pc.a) && pc.a in s.readied
    requires forall r | r in s.refs && r.artifact == pc.a :: r in Effect(dec, s, step).refs
    requires step.Restore? && s.workers[step.w].a == pc.a ==> Referenced(s, pc.a)
    ensures Patient(Effect(dec, s, step), pc)
  {
    var t := Effect(dec, s, step);
    RefsChange(dec, s, step, pc.a);
    if pc.Deleting? || pc.Removing? {
      ForsakenStays(dec, s, step, pc.a);
    } else if Has(t.manifests, pc.a, Ready) && !Has(s.manifests, pc.a, Ready) {
      OnlyRestoreReadies(dec, s, step, pc.a);
    }
  }

  /** A restore that is trusted: something refers to the artifact, and its blob is there. */
  lemma RestoreIsTrusted(dec: Decoder, s: System, step: Step, a: nat)
    requires Enabled(s, step) && step.Restore? && s.workers[step.w].a == a
    requires Guarded(s, a) && a !in Effect(dec, s, step).raced
    ensures a !in s.raced && a !in s.blobDeleted
    ensures Referenced(s, a) || SoleDeleter(s, step.w)
  {
    assert Trusted(s, step.w);
  }

  /** A blob is only deleted by the worker that got as far as deleting it. */
  lemma OnlyDeleteBlobDeletes(dec: Decoder, s: System, step: Step, a: nat)
    requires Enabled(s, step) && a in Effect(dec, s, step).blobDeleted && a !in s.blobDeleted
    ensures step.DeleteBlob? && DeletesAt(s.workers[step.w], a)
    ensures Effect(dec, s, step).refs == s.refs && Effect(dec, s, step).manifests == s.manifests
  {
  }

  lemma DeletedIsForsaken(dec: Decoder, s: System, step: Step, a: nat)
    requires ArtifactValid(dec, s, a) && Enabled(s, step) && Guarded(s, a) && a !in s.raced
    requires var t := Effect(dec, s, step); a in t.blobDeleted && a !in t.raced
    ensures Forsaken(Effect(dec, s, step), a)
  {
    if a in s.blobDeleted {
      if step.Restore? && s.workers[step.w].a == a {
        RestoreIsTrusted(dec, s, step, a);
      }
      ForsakenStays(dec, s, step, a);
    } else {
      OnlyDeleteBlobDeletes(dec, s, step, a);
      assert Trusted(s, step.w);
    }
  }

  // ----- the worker that moves -----

  /** The only steps that leave their worker deleting. */
  lemma DeletionSteps(dec: Decoder, s: System, step: Step)
    requires Enabled(s, step) && Moved(dec, s, step).Some? && Deleter(Moved(dec, s, step).value)
    ensures step.ReadKind? || step.ClaimDelete? || step.Pend? || step.Rechecked? || step.DeleteBlob?
  {
  }

  /** A worker that begins to delete has asked nothing; it is contested if it is not alone. */
  lemma EntryIsFresh(dec: Decoder, s: System, step: Step, a: nat)
    requires Enabled(s, step) && (step.ClaimDelete? || step.Pend?)
    requires Moved(dec, s, step).Some? && DeletesAt(Moved(dec, s, step).value, a)
    ensures Moved(dec, s, step) == Some(Rechecking(a, {}, false))
    ensures var t := Effect(dec, s, step);
            && Has(t.manifests, a, DeletePending)
            && (forall v | v in s.workers && DeletesAt(s.workers[v], a) :: v in t.contested && step.w in t.contested)
  {
    forall v | v in s.workers && DeletesAt(s.workers[v], a) ensures v in Deleters(s, a) {
    }
  }

  lemma EntryIsTrusted(dec: Decoder, s: System, step: Step, a: nat)
    requires Enabled(s, step) && (step.ClaimDelete? || step.Pend?)
    requires Moved(dec, s, step).Some? && DeletesAt(Moved(dec, s, step).value, a)
    ensures var t := Next(dec, s, step); step.w in t.workers && DeletesAt(t.workers[step.w], a) && Trusted(t, step.w)
  {
    EntryIsFresh(dec, s, step, a);
    StepMovesOne(dec, s, step);
  }

  /** The steps that go on with a deletion leave the records alone. */
  lemma GoingOnKeepsRecords(dec: Decoder, s: System, step: Step)
    requires Enabled(s, step) && (step.ReadKind? || step.Rechecked? || step.DeleteBlob?)
    ensures var t := Effect(dec, s, step);
            && t.contested == s.contested && t.disturbed == s.disturbed && t.refs == s.refs
               && t.manifests == s.manifests
            && (!step.DeleteBlob? ==> t.blobDeleted == s.blobDeleted)
  {
  }

  /** A kind that was asked and not found leaves any other reference for the kinds still to ask. */
  lemma ReadKindIsPatient(s: System, pc: Pc, kind: Kind)
    requires pc.Rechecking? && Patient(s, pc)
    ensures Patient(s, Rechecking(pc.a, pc.kinds + {kind}, pc.found || HasRef(s, pc.a, kind)))
  {
  }

  lemma AllKindsAsked(s: System, a: nat)
    requires forall r | r in s.refs && r.artifact == a :: r.kind !in KINDS
    ensures !Referenced(s, a)
  {
    forall r | r in s.refs && r.artifact == a ensures false {
      match r.kind
      case SnapshotRef =>
      case CandidateRef =>
      case LeaseRef =>
    }
  }

  lemma RecheckedIsPatient(s: System, pc: Pc)
    requires pc.Rechecking? && pc.kinds == KINDS && Patient(s, pc)
    ensures if pc.found then Referenced(s, pc.a) else Forsaken(s, pc.a)
  {
    if !pc.found {
      assert forall k: Kind :: k in KINDS by {
        forall k: Kind ensures k in KINDS {
          match k
          case SnapshotRef =>
          case CandidateRef =>
          case LeaseRef =>
        }
      }
      AllKindsAsked(s, pc.a);
    }
  }

  lemma MoverIsPatient(dec: Decoder, s: System, step: Step)
    requires Enabled(s, step) && (step.ReadKind? || step.Rechecked? || step.DeleteBlob?)
    requires Deleter(s.workers[step.w]) && Patient(s, s.workers[step.w])
    ensures Moved(dec, s, step).Some? && Deleter(Moved(dec, s, step).value)
    ensures Patient(Effect(dec, s, step), Moved(dec, s, step).value)
  {
    var pc := s.workers[step.w];
    GoingOnKeepsRecords(dec, s, step);
    if step.ReadKind? {
      ReadKindIsPatient(s, pc, step.kind);
    } else if step.Rechecked? {
      RecheckedIsPatient(s, pc);
    }
  }

  lemma MoverIsSole(dec: Decoder, s: System, step: Step, a: nat)
    requires Enabled(s, step) && (step.ReadKind? || step.Rechecked? || step.DeleteBlob?)
    requires DeletesAt(s.workers[step.w], a) && SoleDeleter(s, step.w)
    requires a in s.blobDeleted ==> Forsaken(s, a)
    ensures var t := Next(dec, s, step);
            step.w in t.workers && DeletesAt(t.workers[step.w], a) && SoleDeleter(t, step.w)
  {
    StepMovesOne(dec, s, step);
    GoingOnKeepsRecords(dec, s, step);
    MoverIsStillSole(dec, s, step, a, Next(dec, s, step));
  }

  lemma MoverIsInformed(dec: Decoder, s: System, step: Step, a: nat, t: System)
    requires Enabled(s, step) && (step.ReadKind? || step.Rechecked? || step.DeleteBlob?)
    requires DeletesAt(s.workers[step.w], a) && Informed(s, s.workers[step.w])
    requires a in s.blobDeleted ==> !Referenced(s, a)
    requires t.refs == s.refs && (!step.DeleteBlob? ==> t.blobDeleted == s.blobDeleted)
    ensures Moved(dec, s, step).Some? && DeletesAt(Moved(dec, s, step).value, a)
            && Informed(t, Moved(dec, s, step).value)
  {
    var pc := s.workers[step.w];
    if pc.Rechecking? && !pc.found && pc.kinds == KINDS {
      AllKindsAsked(s, a);
    }
  }

  lemma MoverIsStillSole(dec: Decoder, s: System, step: Step, a: nat, t: System)
    requires Enabled(s, step) && (step.ReadKind? || step.Rechecked? || step.DeleteBlob?)
    requires DeletesAt(s.workers[step.w], a) && SoleDeleter(s, step.w)
    requires a in s.blobDeleted ==> Forsaken(s, a)
    requires t.refs == s.refs && t.manifests == s.manifests && (!step.DeleteBlob? ==> t.blobDeleted == s.blobDeleted)
    requires Moved(dec, s, step).Some? ==> t.workers == s.workers[step.w := Moved(dec, s, step).value]
    ensures Moved(dec, s, step).Some? && DeletesAt(t.workers[step.w], a) && SoleDeleter(t, step.w)
  {
    MoverIsInformed(dec, s, step, a, t);
  }

  lemma MoverIsTrusted(dec: Decoder, s: System, step: Step, a: nat)
    requires Enabled(s, step) && Mover(step).Some? && Guarded(s, a) && a !in s.raced
    requires Moved(dec, s, step).Some? && DeletesAt(Moved(dec, s, step).value, a)
    ensures var t := Next(dec, s, step); step.w in t.workers && DeletesAt(t.workers[step.w], a) && Trusted(t, step.w)
  {
    var t := Next(dec, s, step);
    DeletionSteps(dec, s, step);
    StepMovesOne(dec, s, step);
    if step.ClaimDelete? || step.Pend? {
      EntryIsTrusted(dec, s, step, a);
    } else {
      GoingOnKeepsRecords(dec, s, step);
      assert DeletesAt(s.workers[step.w], a) && Trusted(s, step.w);
      if step.w !in s.contested {
        MoverIsSole(dec, s, step, a);
      }
      if step.w !in s.disturbed {
        MoverIsPatient(dec, s, step);
      }
    }
  }

  // ----- the other workers -----

  /** While one worker deletes alone, nobody else moves the manifest on, or deletes the blob. */
  lemma OthersKeepPending(dec: Decoder, s: System, step: Step, w: nat, a: nat)
    requires Enabled(s, step) && Mover(step) != Some(w) && ArtifactValid(dec, s, a)
    requires w in s.workers && DeletesAt(s.workers[w], a) && SoleDeleter(s, w)
    requires Mover(step).Some? && step.w in s.workers ==> PcValid(dec, s, s.workers[step.w])
    ensures var t := Effect(dec, s, step);
            Has(t.manifests, a, DeletePending) && (a in t.blobDeleted <==> a in s.blobDeleted)
  {
    assert Mover(step).Some? && step.w in s.workers ==> !DeletesAt(s.workers[step.w], a);
    if Writes(step) {
      WritesKeepPending(dec, s, step, a);
    } else {
      DeletionsKeepPending(s, step, a);
    }
  }

  lemma WritesKeepPending(dec: Decoder, s: System, step: Step, a: nat)
    requires Enabled(s, step) && Writes(step) && ArtifactValid(dec, s, a) && Has(s.manifests, a, DeletePending)
    requires step.w in s.workers ==> PcValid(dec, s, s.workers[step.w])
    ensures Has(WriteEffect(dec, s, step).manifests, a, DeletePending)
  {
  }

  lemma DeletionsKeepPending(s: System, step: Step, a: nat)
    requires Enabled(s, step) && !Writes(step) && Has(s.manifests, a, DeletePending)
    requires Mover(step).Some? && step.w in s.workers ==> !DeletesAt(s.workers[step.w], a)
    ensures var t := DeletionEffect(s, step);
            Has(t.manifests, a, DeletePending) && (a in t.blobDeleted <==> a in s.blobDeleted)
  {
  }

  /** Nobody else starts deleting an artifact whose deleter stays uncontested. */
  lemma NoNewDeleter(dec: Decoder, s: System, step: Step, w: nat, a: nat)
    requires Enabled(s, step) && Mover(step) != Some(w)
    requires w in s.workers && DeletesAt(s.workers[w], a) && SoleDeleter(s, w)
    requires w !in Effect(dec, s, step).contested
    ensures var t := Next(dec, s, step); forall v | v in t.workers && DeletesAt(t.workers[v], a) :: v == w
  {
    var t := Next(dec, s, step);
    StepMovesOne(dec, s, step);
    forall v | v in t.workers && DeletesAt(t.workers[v], a) ensures v == w {
      if Mover(step) == Some(v) {
        DeletionSteps(dec, s, step);
        if step.ClaimDelete? || step.Pend? {
          EntryIsFresh(dec, s, step, a);
        }
      }
    }
  }

  lemma SoleStays(dec: Decoder, s: System, step: Step, w: nat, a: nat)
    requires Enabled(s, step) && Mover(step) != Some(w) && ArtifactValid(dec, s, a)
    requires w in s.workers && DeletesAt(s.workers[w], a) && SoleDeleter(s, w)
    requires Mover(step).Some? && step.w in s.workers ==> PcValid(dec, s, s.workers[step.w])
    requires w !in Effect(dec, s, step).contested
    ensures w in Next(dec, s, step).workers && Next(dec, s, step).workers[w] == s.workers[w]
    ensures SoleDeleter(Next(dec, s, step), w)
  {
    StepMovesOne(dec, s, step);
    RefsChange(dec, s, step, a);
    OthersKeepPending(dec, s, step, w, a);
    NoNewDeleter(dec, s, step, w, a);
  }

  lemma OtherIsTrusted(dec: Decoder, s: System, step: Step, w: nat, a: nat)
    requires Inv(dec, s) && Enabled(s, step) && Mover(step) != Some(w) && Guarded(s, a) && a !in s.raced
    requires w in s.workers && DeletesAt(s.workers[w], a) && a !in Effect(dec, s, step).raced
    ensures var t := Next(dec, s, step); w in t.workers && t.workers[w] == s.workers[w] && Trusted(t, w)
  {
    var t := Next(dec, s, step);
    StepMovesOne(dec, s, step);
    RecordsGrow(dec, s, step, w);
    assert ArtifactValid(dec, s, a) && Trusted(s, w);
    if w !in t.contested {
      assert Mover(step).Some? && step.w in s.workers ==> PcValid(dec, s, s.workers[step.w]);
      SoleStays(dec, s, step, w, a);
    }
    if w !in t.disturbed {
      assert PcValid(dec, s, s.workers[w]);
      OtherIsPatient(dec, s, step, w, a);
    }
  }

  lemma OtherIsPatient(dec: Decoder, s: System, step: Step, w: nat, a: nat)
    requires Enabled(s, step) && Mover(step) != Some(w) && Guarded(s, a) && a !in Effect(dec, s, step).raced
    requires w in s.workers && DeletesAt(s.workers[w], a) && Patient(s, s.workers[w])
    requires ArtifactValid(dec, s, a) && PcValid(dec, s, s.workers[w]) && w !in Effect(dec, s, step).disturbed
    ensures Patient(Effect(dec, s, step), s.workers[w])
  {
    RefsStay(dec, s, step, w, a);
    if step.Restore? && s.workers[step.w].a == a {
      RestoreIsTrusted(dec, s, step, a);
    }
    PatientStays(dec, s, step, s.workers[w]);
  }

  lemma StepKeepsGuarded(dec: Decoder, s: System, step: Step, a: nat)
    requires Inv(dec, s) && Enabled(s, step) && Guarded(s, a)
    ensures Guarded(Next(dec, s, step), a)
  {
    var t := Next(dec, s, step);
    StepMovesOne(dec, s, step);
    if a !in t.raced {
      assert ArtifactValid(dec, s, a);
      if a in t.blobDeleted {
        DeletedIsForsaken(dec, s, step, a);
      }
      forall w | w in t.workers && DeletesAt(t.workers[w], a) ensures Trusted(t, w) {
        if Mover(step) == Some(w) {
          MoverIsTrusted(dec, s, step, a);
        } else {
          OtherIsTrusted(dec, s, step, w, a);
        }
      }
    }
  }

  // ----- whole runs -----

  /** What reconcilers and the referring documents are allowed to do beside a deletion. */
  datatype Policy = Policy(overlaps: bool, drops: bool)

  const ANYTHING := Policy(true, true)

  /** The step begins to delete an artifact that another worker is deleting. */
  predicate Overlaps(s: System, step: Step)
    requires Enabled(s, step)
  {
    match step
    case ClaimDelete(w) => Has(s.manifests, s.workers[w].a, Ready) && Deleters(s, s.workers[w].a) != {}
    case Pend(w, a) => Deleters(s, a) != {}
    case _ => false
  }

  /** The step drops a reference to an artifact that a worker is deleting. */
  predicate Disturbs(s: System, step: Step)
    requires Enabled(s, step)
  {
    step.DropRef? && Deleters(s, step.ref.artifact) != {}
  }

  predicate Permitted(p: Policy, s: System, step: Step) {
    Enabled(s, step) && (Overlaps(s, step) ==> p.overlaps) && (Disturbs(s, step) ==> p.drops)
  }

  function Protocol(dec: Decoder, p: Policy): Machine<System, Step> {
    Machine((s, x) => Permitted(p, s, x), (s, x) => if Enabled(s, x) then Next(dec, s, x) else s)
  }

  const EMPTY := System(map[], map[], 0, {}, 0, map[], {}, 0, 0, 0, {}, {}, {}, {}, {}, {})

  ghost predicate Reaches(dec: Decoder, steps: seq<Step>, t: System) {
    Run(Protocol(dec, ANYTHING), EMPTY, steps, t)
  }

  lemma StepIsSafe(dec: Decoder, s: System, step: Step)
    requires Safe(dec, s) && Enabled(s, step)
    ensures Safe(dec, Next(dec, s, step))
  {
    StepKeepsInv(dec, s, step);
    forall a: nat ensures Guarded(Next(dec, s, step), a) {
      StepKeepsGuarded(dec, s, step, a);
    }
  }

  lemma {:induction false} RunIsSafe(dec: Decoder, p: Policy, s: System, steps: seq<Step>, t: System)
    requires Safe(dec, s) && Run(Protocol(dec, p), s, steps, t)
    ensures Safe(dec, t)
    decreases |steps|
  {
    if steps != [] {
      StepIsSafe(dec, s, steps[0]);
      RunIsSafe(dec, p, Next(dec, s, steps[0]), steps[1..], t);
    }
  }

  /** Promotion is by compare-and-set after verification: whatever becomes ready from writing is readable then. */
  lemma PromotionIsVerified(dec: Decoder, s: System, step: Step, a: nat)
    requires Inv(dec, s) && Enabled(s, step) && Has(s.manifests, a, Writing)
    requires !Has(Next(dec, s, step).manifests, a, Writing)
    ensures var t := Next(dec, s, step);
            Has(t.manifests, a, Corrupt) || (Has(t.manifests, a, Ready) && Readable(dec, t.manifests, t.blobs, a))
  {
    assert ArtifactValid(dec, s, a);
    StepMovesOne(dec, s, step);
    assert Mover(step).Some? && step.w in s.workers ==> PcValid(dec, s, s.workers[step.w]);
    if Writes(step) {
      WritesPromoteVerified(dec, s, step, a);
    } else {
      DeletionsPassOver(s, step, a);
    }
  }

  lemma WritesPromoteVerified(dec: Decoder, s: System, step: Step, a: nat)
    requires Enabled(s, step) && Writes(step) && ArtifactValid(dec, s, a) && Has(s.manifests, a, Writing)
    requires step.w in s.workers ==> PcValid(dec, s, s.workers[step.w])
    requires !Has(WriteEffect(dec, s, step).manifests, a, Writing)
    ensures var t := WriteEffect(dec, s, step);
            Has(t.manifests, a, Corrupt) || (Has(t.manifests, a, Ready) && Readable(dec, t.manifests, t.blobs, a))
  {
  }

  lemma DeletionsPassOver(s: System, step: Step, a: nat)
    requires Enabled(s, step) && !Writes(step) && Has(s.manifests, a, Writing)
    ensures Has(DeletionEffect(s, step).manifests, a, Writing)
  {
  }

  /** Writing is never entered again. */
  lemma WritingIsLeftForGood(dec: Decoder, s: System, step: Step, a: nat)
    requires Inv(dec, s) && Enabled(s, step) && a < s.next && !Has(s.manifests, a, Writing)
    ensures !Has(Next(dec, s, step).manifests, a, Writing)
  {
    if step.DeleteBlob? {
      assert PcValid(dec, s, s.workers[step.w]);
    }
    StepFollows(dec, s, step, a);
  }

  lemma EmptyIsSafe(dec: Decoder)
    ensures Safe(dec, EMPTY)
  {
    forall a: nat ensures ArtifactValid(dec, EMPTY, a) && Guarded(EMPTY, a) {
    }
  }

  lemma ReachedIsSafe(dec: Decoder, p: Policy, steps: seq<Step>, t: System)
    requires Run(Protocol(dec, p), EMPTY, steps, t)
    ensures Safe(dec, t)
  {
    EmptyIsSafe(dec);
    RunIsSafe(dec, p, EMPTY, steps, t);
  }

  /** A ready artifact can be read; what something refers to is stored, can be read, and was not deleted. */
  ghost predicate Intact(dec: Decoder, t: System, a: nat) {
    && (Has(t.manifests, a, Ready) ==> Readable(dec, t.manifests, t.blobs, a))
    && (Referenced(t, a) ==> Live(t, a) && Readable(dec, t.manifests, t.blobs, a) && a !in t.blobDeleted)
  }

  lemma ArtifactIsIntact(dec: Decoder, t: System, a: nat)
    requires ArtifactValid(dec, t, a) && Guarded(t, a) && a !in t.raced
    ensures Intact(dec, t, a)
  {
  }

  lemma UnracedIsIntact(dec: Decoder, steps: seq<Step>, t: System, a: nat)
    requires Reaches(dec, steps, t) && a !in t.raced
    ensures Intact(dec, t, a)
  {
    ReachedIsSafe(dec, ANYTHING, steps, t);
    assert ArtifactValid(dec, t, a) && Guarded(t, a);
    ArtifactIsIntact(dec, t, a);
  }

  /**
   Ready means readable, after any run: unless a worker acted on the artifact although, since that
   worker began to delete it, another one was deleting it as well and it lost a reference.
   */
  lemma ReadyMeansReadable(dec: Decoder, steps: seq<Step>, t: System, a: nat)
    requires Reaches(dec, steps, t) && Has(t.manifests, a, Ready) && a !in t.raced
    ensures Readable(dec, t.manifests, t.blobs, a)
  {
    UnracedIsIntact(dec, steps, t, a);
  }

  /** Deletion safety, on the same condition: what is referenced is stored, readable and not deleted. */
  lemma DeletionIsSafe(dec: Decoder, steps: seq<Step>, t: System, a: nat)
    requires Reaches(dec, steps, t) && Referenced(t, a) && a !in t.raced
    ensures Live(t, a) && Readable(dec, t.manifests, t.blobs, a) && a !in t.blobDeleted
  {
    UnracedIsIntact(dec, steps, t, a);
  }

  // ----- exactly when every run is safe -----

  /** Nothing that the policy forbids is on record. */
  predicate Observed(p: Policy, s: System) {
    s.raced == {} && (!p.overlaps ==> s.contested == {}) && (!p.drops ==> s.disturbed == {})
  }

  lemma StepIsObserved(dec: Decoder, p: Policy, s: System, step: Step)
    requires Observed(p, s) && Permitted(p, s, step) && !(p.overlaps && p.drops)
    ensures Observed(p, Next(dec, s, step))
  {
    StepMovesOne(dec, s, step);
    if !Writes(step) {
      DeletionIsObserved(p, s, step);
    }
  }

  lemma DeletionIsObserved(p: Policy, s: System, step: Step)
    requires Observed(p, s) && Permitted(p, s, step) && !(p.overlaps && p.drops) && !Writes(step)
    ensures Observed(p, DeletionEffect(s, step))
  {
    if step.ClaimDelete? {
      var a := s.workers[step.w].a;
      assert Deleters(s.(manifests := SetState(s.manifests, a, Ready, DeletePending)), a) == Deleters(s, a);
    }
  }

  lemma {:induction false} RunIsObserved(dec: Decoder, p: Policy, s: System, steps: seq<Step>, t: System)
    requires Observed(p, s) && Run(Protocol(dec, p), s, steps, t) && !(p.overlaps && p.drops)
    ensures Observed(p, t)
    decreases |steps|
  {
    if steps != [] {
      StepIsObserved(dec, p, s, steps[0]);
      RunIsObserved(dec, p, Next(dec, s, steps[0]), steps[1..], t);
    }
  }

  /** Every artifact is intact after every run that the policy permits. */
  ghost predicate KeepsIntact(dec: Decoder, p: Policy) {
    forall steps, t, a: nat | Run(Protocol(dec, p), EMPTY, steps, t) :: Intact(dec, t, a)
  }

  /**
   As long as anything decodes at all: every run keeps every artifact intact if and only if either
   no two workers delete one artifact at the same time, or none loses a reference meanwhile.
   */
  lemma IntactExactly(dec: Decoder, p: Policy, e: Encoded)
    requires dec(e.integrity, e.bytes)
    ensures KeepsIntact(dec, p) <==> !p.overlaps || !p.drops
  {
    if p == ANYTHING {
      var steps, t := ReferencedBlobMayBeDeleted(dec, e);
      assert Run(Protocol(dec, p), EMPTY, steps, t) && !Intact(dec, t, 0);
    } else {
      forall steps, t, a: nat | Run(Protocol(dec, p), EMPTY, steps, t) ensures Intact(dec, t, a) {
        ReachedIsSafe(dec, p, steps, t);
        RunIsObserved(dec, p, EMPTY, steps, t);
        assert ArtifactValid(dec, t, a) && Guarded(t, a);
        ArtifactIsIntact(dec, t, a);
      }
    }
  }

  // ----- what writers were told -----

  /** While a manifest lives, every successful write under its key returned it, with its digest. */
  lemma WritersAgree(dec: Decoder, steps: seq<Step>, t: System, r: Returned, q: Returned)
    requires Reaches(dec, steps, t) && r in t.returned && q in t.returned && r.key == q.key
    requires r.a in t.manifests && q.a in t.manifests
    ensures r == q && r.a in t.readied
  {
    ReachedIsSafe(dec, ANYTHING, steps, t);
    assert ReturnedValid(t, r) && ReturnedValid(t, q);
  }

  /** The summed counters are the transitions made: each manifest is promoted once and removed once. */
  lemma CountersAreTransitions(dec: Decoder, steps: seq<Step>, t: System, a: nat)
    requires Reaches(dec, steps, t)
    ensures t.promoted + t.published == |t.readied| && t.deleted == |t.removed|
    ensures Live(t, a) ==> a in t.readied
    ensures a in t.removed ==> a !in t.manifests && a in t.readied
  {
    ReachedIsSafe(dec, ANYTHING, steps, t);
    assert ArtifactValid(dec, t, a);
  }

  // ----- an uninterrupted write or read is one of the runs -----

  function Free(dec: Decoder): Machine<System, Step> {
    Protocol(dec, ANYTHING)
  }

  function StoreOf(s: System): Store {
    Store(s.manifests, s.blobs, s.next)
  }

  /** A worker's turn is over: it is gone, and what it stored and returned is in `st` and `r`. */
  ghost predicate Done(s: System, w: nat, m: Manifest, st: Store, r: Result<nat, Error>, t: System) {
    && StoreOf(t) == st && t.workers == s.workers - {w} && t.refs == s.refs && t.nextRef == s.nextRef
    && t.returned == if r.Ok? then s.returned + {Returned(m.key, r.value, m.integrity.sha256)} else s.returned
  }

  /** Verifying what was put, and moving the manifest on. */
  lemma VerifiesAndPromotes(dec: Decoder, s: System, w: nat, a: nat, m: Manifest, e: Encoded)
    returns (steps: seq<Step>, t: System)
    requires w in s.workers && s.workers[w] == Verifying(a, m, e, false)
    requires a in s.manifests && s.manifests[a] == m && m.state == Writing && a in s.blobs
    ensures Run(Free(dec), s, steps, t)
    ensures var p := Published(dec, StoreOf(s), a, e.bytes); Done(s, w, m, p.0, p.1, t)
  {
    var u := Next(dec, s, Verify(w));
    OneStep(Free(dec), s, Verify(w), u);
    var last := if dec(m.integrity, s.blobs[a]) then Promote(w) else Mark(w);
    t := Next(dec, u, last);
    OneMore(Free(dec), s, [Verify(w)], u, last, t);
    steps := [Verify(w)] + [last];
  }

  /** A blob that was there already is verified twice. */
  lemma VerifiesExisting(dec: Decoder, s: System, w: nat, a: nat, m: Manifest, e: Encoded)
    returns (steps: seq<Step>, t: System)
    requires w in s.workers && s.workers[w] == Verifying(a, m, e, true)
    requires a in s.manifests && s.manifests[a] == m && m.state == Writing && a in s.blobs
    ensures Run(Free(dec), s, steps, t)
    ensures var p := Published(dec, StoreOf(s), a, e.bytes); Done(s, w, m, p.0, p.1, t)
  {
    var u := Next(dec, s, Verify(w));
    OneStep(Free(dec), s, Verify(w), u);
    if dec(m.integrity, s.blobs[a]) {
      steps, t := VerifiesAndPromotes(dec, u, w, a, m, e);
      RunsJoin(Free(dec), s, [Verify(w)], u, steps, t);
      steps := [Verify(w)] + steps;
    } else {
      t := Next(dec, u, Mark(w));
      OneMore(Free(dec), s, [Verify(w)], u, Mark(w), t);
      steps := [Verify(w)] + [Mark(w)];
    }
  }

  lemma Publishes(dec: Decoder, s: System, w: nat, a: nat, m: Manifest, e: Encoded)
    returns (steps: seq<Step>, t: System)
    requires w in s.workers && s.workers[w] == Loaded(a, m, e) && SameDigest(s.workers[w])
    requires a in s.manifests && s.manifests[a] == m && m.state == Writing
    ensures Run(Free(dec), s, steps, t)
    ensures var p := Published(dec, StoreOf(s), a, e.bytes); Done(s, w, m, p.0, p.1, t)
  {
    var u := Next(dec, s, PutBlob(w));
    OneStep(Free(dec), s, PutBlob(w), u);
    if a in s.blobs {
      steps, t := VerifiesExisting(dec, u, w, a, m, e);
    } else {
      steps, t := VerifiesAndPromotes(dec, u, w, a, m, e);
    }
    RunsJoin(Free(dec), s, [PutBlob(w)], u, steps, t);
    steps := [PutBlob(w)] + steps;
  }

  /** A write that is turned away leaves without a trace. */
  lemma Answers(dec: Decoder, s: System, w: nat, a: nat, m: Manifest, e: Encoded) returns (steps: seq<Step>, t: System)
    requires w in s.workers && s.workers[w] == Loaded(a, m, e) && a in s.manifests && s.manifests[a] == m
    ensures Run(Free(dec), s, steps, t)
    ensures var p := Answer(dec, StoreOf(s), a, e); Done(s, w, m, p.0, p.1, t)
  {
    if SameDigest(s.workers[w]) && m.state == Writing {
      steps, t := Publishes(dec, s, w, a, m, e);
    } else {
      var only := if SameDigest(s.workers[w]) && m.state == Ready then VerifyReady(w) else Crash(w);
      t := Next(dec, s, only);
      OneStep(Free(dec), s, only, t);
      steps := [only];
    }
  }

  lemma LoadsManifest(dec: Decoder, s: System, w: nat, key: string, e: Encoded) returns (steps: seq<Step>, t: System)
    requires w !in s.workers
    ensures Run(Free(dec), s, steps, t)
    ensures StoreOf(t) == WithManifest(StoreOf(s), key, e)
    ensures var a := KeyedArtifact(StoreOf(s), key);
            a in t.manifests && t.manifests[a].key == key
            && t == s.(manifests := t.manifests, next := t.next,
                       workers := s.workers[w := Loaded(a, t.manifests[a], e)])
  {
    var u := Next(dec, s, Create(w, key, e));
    OneStep(Free(dec), s, Create(w, key, e), u);
    steps, t := [Create(w, key, e)], u;
    if KeyTaken(s.manifests, key) {
      var load := LoadKey(w, Holder(s.manifests, key));
      t := Next(dec, u, load);
      OneMore(Free(dec), s, steps, u, load, t);
      steps := steps + [load];
    }
  }

  /** A write made without interruption is one of the runs, with the same store and answer. */
  lemma WriteIsARun(dec: Decoder, s: System, w: nat, key: string, e: Encoded) returns (steps: seq<Step>, t: System)
    requires w !in s.workers
    ensures Run(Free(dec), s, steps, t) && t.workers == s.workers && t.refs == s.refs
    ensures var p := WriteOf(dec, StoreOf(s), key, e);
            && StoreOf(t) == p.0
            && t.returned == if p.1.Ok? then s.returned + {Returned(key, p.1.value, e.integrity.sha256)} else s.returned
  {
    var first, u := LoadsManifest(dec, s, w, key, e);
    var a := KeyedArtifact(StoreOf(s), key);
    var rest;
    rest, t := Answers(dec, u, w, a, u.manifests[a], e);
    RunsJoin(Free(dec), s, first, u, rest, t);
    steps := first + rest;
    assert u.workers - {w} == s.workers;
  }

  lemma ReadIsARun(dec: Decoder, s: System, w: nat, a: nat) returns (steps: seq<Step>, t: System)
    requires w !in s.workers
    ensures Run(Free(dec), s, steps, t)
    ensures t == s.(manifests := t.manifests) && StoreOf(t) == ReadOf(dec, StoreOf(s), a).0
  {
    if Has(s.manifests, a, Ready) {
      steps, t := ReadsReady(dec, s, w, a);
    } else {
      steps, t := [], s;
    }
  }

  lemma ReadsReady(dec: Decoder, s: System, w: nat, a: nat) returns (steps: seq<Step>, t: System)
    requires w !in s.workers && Has(s.manifests, a, Ready)
    ensures Run(Free(dec), s, steps, t)
    ensures var unreadable := a in s.blobs && !dec(s.manifests[a].integrity, s.blobs[a]);
            t == if unreadable then s.(manifests := SetState(s.manifests, a, Ready, Corrupt)) else s
  {
    steps := [OpenRead(w, a)] + [ReadBlob(w)];
    t := ReadsOnce(dec, s, w, a);
    if a in s.blobs && !dec(s.manifests[a].integrity, s.blobs[a]) {
      assert t.workers - {w} == s.workers;
      var u := MarksWhatItRead(dec, t, w, a);
      OneMore(Free(dec), s, steps, t, Mark(w), u);
      steps, t := steps + [Mark(w)], u;
    }
  }

  lemma ReadsOnce(dec: Decoder, s: System, w: nat, a: nat) returns (t: System)
    requires w !in s.workers && Has(s.manifests, a, Ready)
    ensures Run(Free(dec), s, [OpenRead(w, a)] + [ReadBlob(w)], t)
    ensures var unreadable := a in s.blobs && !dec(s.manifests[a].integrity, s.blobs[a]);
            t == s.(workers := if unreadable then s.workers[w := Marking(a, Ready)] else s.workers)
  {
    var u := s.(workers := s.workers[w := Reading(a, s.manifests[a])]);
    t := Next(dec, u, ReadBlob(w));
    assert s.workers[w := Reading(a, s.manifests[a])] - {w} == s.workers;
    OneStep(Free(dec), s, OpenRead(w, a), u);
    OneMore(Free(dec), s, [OpenRead(w, a)], u, ReadBlob(w), t);
  }

  lemma MarksWhatItRead(dec: Decoder, s: System, w: nat, a: nat) returns (t: System)
    requires w in s.workers && s.workers[w] == Marking(a, Ready)
    ensures t == Next(dec, s, Mark(w))
    ensures t == s.(manifests := SetState(s.manifests, a, Ready, Corrupt), workers := s.workers - {w})
  {
    t := Next(dec, s, Mark(w));
  }

  // ----- a referenced blob deleted -----

  lemma Then(dec: Decoder, before: seq<Step>, s: System, step: Step, t: System)
    requires Reaches(dec, before, s) && Enabled(s, step) && Next(dec, s, step) == t
    ensures Reaches(dec, before + [step], t)
  {
    OneMore(Free(dec), EMPTY, before, s, step, t);
  }

  function DemoManifest(e: Encoded, state: State): Manifest {
    Manifest("k", e.integrity, state)
  }

  /** One stored artifact with the given references and workers. */
  function Scene(e: Encoded, state: State, refs: set<Ref>, nextRef: nat, workers: map<nat, Pc>): System {
    System(map[0 := DemoManifest(e, state)], map[0 := e.bytes], 1, refs, nextRef, workers,
           {Returned("k", 0, e.integrity.sha256)}, 0, 1, 0, {0}, {}, {}, {}, {}, {})
  }

  lemma PutAndVerified(dec: Decoder, e: Encoded) returns (steps: seq<Step>, t: System)
    requires dec(e.integrity, e.bytes)
    ensures Run(Free(dec), EMPTY, steps, t)
    ensures var m := DemoManifest(e, Writing);
            t == EMPTY.(manifests := map[0 := m], next := 1, blobs := map[0 := e.bytes],
                        workers := map[0 := Promoting(0, m, e)])
  {
    var m := DemoManifest(e, Writing);
    var s1 := EMPTY.(manifests := map[0 := m], next := 1, workers := map[0 := Loaded(0, m, e)]);
    OneStep(Free(dec), EMPTY, Create(0, "k", e), s1);
    var s2 := s1.(blobs := map[0 := e.bytes], workers := map[0 := Verifying(0, m, e, false)]);
    Then(dec, [Create(0, "k", e)], s1, PutBlob(0), s2);
    t := s2.(workers := map[0 := Promoting(0, m, e)]);
    steps := [Create(0, "k", e)] + [PutBlob(0)];
    Then(dec, steps, s2, Verify(0), t);
    steps := steps + [Verify(0)];
  }

  lemma Readied(dec: Decoder, e: Encoded) returns (steps: seq<Step>)
    requires dec(e.integrity, e.bytes)
    ensures Reaches(dec, steps, Scene(e, Ready, {}, 0, map[]))
  {
    var before, s := PutAndVerified(dec, e);
    Then(dec, before, s, Promote(0), Scene(e, Ready, {}, 0, map[]));
    steps := before + [Promote(0)];
  }

  /** A worker at one of the two reference checks. */
  function Asking(survey: bool, a: nat, kinds: set<Kind>, found: bool): Pc {
    if survey then Surveying(a, kinds, found) else Rechecking(a, kinds, found)
  }

  function At(s: System, w: nat, pc: Pc): System {
    s.(workers := s.workers[w := pc])
  }

  lemma AtAgain(s: System, w: nat, pc: Pc, later: Pc)
    ensures At(At(s, w, pc), w, later) == At(s, w, later)
    ensures forall a, kind :: HasRef(At(s, w, pc), a, kind) == HasRef(s, a, kind)
  {
    assert s.workers[w := pc][w := later] == s.workers[w := later];
  }

  /** Asking one collection. */
  lemma Ask(dec: Decoder, before: seq<Step>, s: System, w: nat, kind: Kind, survey: bool, a: nat, kinds: set<Kind>,
            found: bool, later: set<Kind>) returns (steps: seq<Step>)
    requires later == kinds + {kind} && Reaches(dec, before, At(s, w, Asking(survey, a, kinds, found)))
    ensures Reaches(dec, steps, At(s, w, Asking(survey, a, later, found || HasRef(s, a, kind))))
  {
    var pc, next := Asking(survey, a, kinds, found), Asking(survey, a, later, found || HasRef(s, a, kind));
    AtAgain(s, w, pc, next);
    Then(dec, before, At(s, w, pc), ReadKind(w, kind), At(s, w, next));
    steps := before + [ReadKind(w, kind)];
  }

  lemma AskAll(dec: Decoder, before: seq<Step>, s: System, w: nat, survey: bool, a: nat) returns (steps: seq<Step>)
    requires Reaches(dec, before, At(s, w, Asking(survey, a, {}, false)))
    ensures var found := HasRef(s, a, CandidateRef) || HasRef(s, a, LeaseRef) || HasRef(s, a, SnapshotRef);
            Reaches(dec, steps, At(s, w, Asking(survey, a, KINDS, found)))
  {
    var one, two := HasRef(s, a, CandidateRef), HasRef(s, a, CandidateRef) || HasRef(s, a, LeaseRef);
    steps := Ask(dec, before, s, w, CandidateRef, survey, a, {}, false, {CandidateRef});
    steps := Ask(dec, steps, s, w, LeaseRef, survey, a, {CandidateRef}, one, {CandidateRef, LeaseRef});
    steps := Ask(dec, steps, s, w, SnapshotRef, survey, a, {CandidateRef, LeaseRef}, two, KINDS);
  }

  const CANDIDATE := Ref(0, 0, CandidateRef)
  const LEASE := Ref(1, 0, LeaseRef)

  lemma FirstAsks(dec: Decoder, e: Encoded) returns (steps: seq<Step>, t: System)
    requires dec(e.integrity, e.bytes)
    ensures Reaches(dec, steps, t) && t == Scene(e, Ready, {}, 0, map[1 := Surveying(0, KINDS, false)])
  {
    var before := Readied(dec, e);
    var s := Scene(e, Ready, {}, 0, map[]);
    Then(dec, before, s, Survey(1, 0), At(s, 1, Asking(true, 0, {}, false)));
    steps := AskAll(dec, before + [Survey(1, 0)], s, 1, true, 0);
    t := At(s, 1, Asking(true, 0, KINDS, false));
  }

  /** The first reconciler finds no reference; then a candidate comes to refer to the artifact. */
  lemma FirstSurveys(dec: Decoder, e: Encoded) returns (steps: seq<Step>, t: System)
    requires dec(e.integrity, e.bytes)
    ensures Reaches(dec, steps, t) && t == Scene(e, Ready, {CANDIDATE}, 1, map[1 := Claiming(0)])
  {
    var before, s := FirstAsks(dec, e);
    var u := Scene(e, Ready, {}, 0, map[1 := Claiming(0)]);
    Then(dec, before, s, Surveyed(1), u);
    t := Scene(e, Ready, {CANDIDATE}, 1, map[1 := Claiming(0)]);
    steps := before + [Surveyed(1)];
    Then(dec, steps, u, AddRef(0, CandidateRef), t);
    steps := steps + [AddRef(0, CandidateRef)];
  }

  lemma NobodyDeletes(s: System, a: nat)
    requires forall w | w in s.workers :: !Deleter(s.workers[w])
    ensures Deleters(s, a) == {}
  {
  }

  lemma OneDeletes(s: System, a: nat, w: nat)
    requires w in s.workers && DeletesAt(s.workers[w], a) && forall v | v in s.workers :: v == w
    ensures Deleters(s, a) == {w}
  {
  }

  /** A claim by the only reconciler. */
  lemma ClaimsAlone(dec: Decoder, s: System, w: nat, a: nat)
    requires w in s.workers && s.workers[w] == Claiming(a) && Has(s.manifests, a, Ready)
    requires s.contested == {} && s.disturbed == {} && forall v | v in s.workers :: !Deleter(s.workers[v])
    ensures Next(dec, s, ClaimDelete(w)) ==
            s.(manifests := SetState(s.manifests, a, Ready, DeletePending),
               workers := s.workers[w := Rechecking(a, {}, false)])
  {
    NobodyDeletes(s.(manifests := SetState(s.manifests, a, Ready, DeletePending)), a);
  }

  /** It claims the artifact. */
  lemma FirstClaims(dec: Decoder, e: Encoded) returns (steps: seq<Step>, t: System)
    requires dec(e.integrity, e.bytes)
    ensures Reaches(dec, steps, t) && t == Scene(e, DeletePending, {CANDIDATE}, 1, map[1 := Rechecking(0, {}, false)])
  {
    var before, s := FirstSurveys(dec, e);
    t := Scene(e, DeletePending, {CANDIDATE}, 1, map[1 := Rechecking(0, {}, false)]);
    ClaimsAlone(dec, s, 1, 0);
    Then(dec, before, s, ClaimDelete(1), t);
    steps := before + [ClaimDelete(1)];
  }

  const HALF := Rechecking(0, {LeaseRef, SnapshotRef}, false)

  function Contested(e: Encoded, state: State, refs: set<Ref>, nextRef: nat, workers: map<nat, Pc>): System {
    Scene(e, state, refs, nextRef, workers).(contested := {1, 2})
  }

  /** Then it asks for everything but candidates. */
  lemma HalfRechecked(dec: Decoder, e: Encoded) returns (steps: seq<Step>, t: System)
    requires dec(e.integrity, e.bytes)
    ensures Reaches(dec, steps, t) && t == Scene(e, DeletePending, {CANDIDATE}, 1, map[1 := HALF])
  {
    var before, u := FirstClaims(dec, e);
    var s := Scene(e, DeletePending, {CANDIDATE}, 1, map[]);
    assert u == At(s, 1, Asking(false, 0, {}, false));
    steps := Ask(dec, before, s, 1, LeaseRef, false, 0, {}, false, {LeaseRef});
    steps := Ask(dec, steps, s, 1, SnapshotRef, false, 0, {LeaseRef}, false, {LeaseRef, SnapshotRef});
    t := At(s, 1, HALF);
  }

  /** A second reconciler turns to the artifact. */
  lemma SecondJoins(dec: Decoder, e: Encoded) returns (steps: seq<Step>, t: System)
    requires dec(e.integrity, e.bytes)
    ensures Reaches(dec, steps, t)
    ensures t == At(Contested(e, DeletePending, {CANDIDATE}, 1, map[1 := HALF]), 2, Asking(false, 0, {}, false))
  {
    var before, s := HalfRechecked(dec, e);
    t := At(Contested(e, DeletePending, {CANDIDATE}, 1, map[1 := HALF]), 2, Asking(false, 0, {}, false));
    OneDeletes(s, 0, 1);
    Then(dec, before, s, Pend(2, 0), t);
    steps := before + [Pend(2, 0)];
  }

  /** It finds the candidate. */
  lemma SecondAsks(dec: Decoder, e: Encoded) returns (steps: seq<Step>, t: System)
    requires dec(e.integrity, e.bytes)
    ensures Reaches(dec, steps, t)
    ensures t == At(Contested(e, DeletePending, {CANDIDATE}, 1, map[1 := HALF]), 2, Rechecking(0, KINDS, true))
  {
    var s := Contested(e, DeletePending, {CANDIDATE}, 1, map[1 := HALF]);
    steps, t := SecondJoins(dec, e);
    assert CANDIDATE in s.refs;
    steps := AskAll(dec, steps, s, 2, false, 0);
    t := At(s, 2, Asking(false, 0, KINDS, true));
  }

  /** So it restores the manifest. */
  lemma RestoredMeanwhile(dec: Decoder, e: Encoded) returns (steps: seq<Step>, t: System)
    requires dec(e.integrity, e.bytes)
    ensures Reaches(dec, steps, t) && t == Contested(e, Ready, {CANDIDATE}, 1, map[1 := HALF])
  {
    var before, s := SecondAsks(dec, e);
    var u := At(Contested(e, DeletePending, {CANDIDATE}, 1, map[1 := HALF]), 2, Restoring(0));
    AtAgain(Contested(e, DeletePending, {CANDIDATE}, 1, map[1 := HALF]), 2, Rechecking(0, KINDS, true), Restoring(0));
    Then(dec, before, s, Rechecked(2), u);
    t := Contested(e, Ready, {CANDIDATE}, 1, map[1 := HALF]);
    assert u.workers - {2} == t.workers;
    steps := before + [Rechecked(2)];
    Then(dec, steps, u, Restore(2), t);
    steps := steps + [Restore(2)];
  }

  function Disturbed(e: Encoded, pc: Pc): System {
    Contested(e, Ready, {LEASE}, 2, map[1 := pc]).(disturbed := {1})
  }

  /** A lease takes over from the candidate, so something refers to the artifact all the time. */
  lemma LeaseTakesOver(dec: Decoder, e: Encoded) returns (steps: seq<Step>, t: System)
    requires dec(e.integrity, e.bytes)
    ensures Reaches(dec, steps, t) && t == Disturbed(e, HALF)
  {
    var before, s := RestoredMeanwhile(dec, e);
    var u := Contested(e, Ready, {CANDIDATE, LEASE}, 2, map[1 := HALF]);
    Then(dec, before, s, AddRef(0, LeaseRef), u);
    t := Disturbed(e, HALF);
    OneDeletes(u, 0, 1);
    assert u.refs - {CANDIDATE} == {LEASE};
    steps := before + [AddRef(0, LeaseRef)];
    Then(dec, steps, u, DropRef(CANDIDATE), t);
    steps := steps + [DropRef(CANDIDATE)];
  }

  /** The first reconciler has asked for leases before the lease came, and asks for candidates now. */
  lemma FirstDecides(dec: Decoder, e: Encoded) returns (steps: seq<Step>, t: System)
    requires dec(e.integrity, e.bytes)
    ensures Reaches(dec, steps, t) && t == Disturbed(e, Deleting(0))
  {
    var before, u := LeaseTakesOver(dec, e);
    var s := Contested(e, Ready, {LEASE}, 2, map[]).(disturbed := {1});
    assert u == At(s, 1, Asking(false, 0, {LeaseRef, SnapshotRef}, false));
    steps := Ask(dec, before, s, 1, CandidateRef, false, 0, {LeaseRef, SnapshotRef}, false, KINDS);
    u := At(s, 1, Asking(false, 0, KINDS, false));
    t := Disturbed(e, Deleting(0));
    Then(dec, steps, u, Rechecked(1), t);
    steps := steps + [Rechecked(1)];
  }

  /** So it deletes the blob of a ready artifact that was referenced throughout. */
  lemma ReferencedBlobMayBeDeleted(dec: Decoder, e: Encoded) returns (steps: seq<Step>, t: System)
    requires dec(e.integrity, e.bytes)
    ensures Reaches(dec, steps, t)
    ensures Has(t.manifests, 0, Ready) && Referenced(t, 0) && 0 !in t.blobs && !Intact(dec, t, 0)
  {
    var before, s := FirstDecides(dec, e);
    t := Next(dec, s, DeleteBlob(1));
    Then(dec, before, s, DeleteBlob(1), t);
    steps := before + [DeleteBlob(1)];
    assert LEASE in t.refs;
  }
}
