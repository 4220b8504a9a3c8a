/**
 The server's side of one run's event stream: a durable log and a live channel merged into one
 response, with the emitter that feeds both.
 */
module SseServer {
  import opened Results
  import opened SseLines
  import opened AgentEvents
  import opened Sorting

  /** One write to the response. */
  datatype Item = Heartbeat | Written(event: AgentEvent)

  const HEARTBEAT_TEXT := ": heartbeat\n\n"

  function RenderItem(c: Codec, item: Item): string {
    match item
    case Heartbeat => HEARTBEAT_TEXT
    case Written(v) => ToSseFrame(c, v)
  }

  function Render(c: Codec, items: seq<Item>): string {
    if items == [] then "" else Render(c, items[..|items| - 1]) + RenderItem(c, items[|items| - 1])
  }

  /** The events among the writes. */
  function Events(items: seq<Item>): seq<AgentEvent> {
    if items == [] then []
    else
      var last := items[|items| - 1];
      Events(items[..|items| - 1]) + (if last.Heartbeat? then [] else [last.event])
  }

  lemma AppendItem(c: Codec, items: seq<Item>, item: Item)
    ensures Render(c, items + [item]) == Render(c, items) + RenderItem(c, item)
    ensures Events(items + [item]) == Events(items) + (if item.Heartbeat? then [] else [item.event])
  {
    assert (items + [item])[..|items|] == items;
  }

  // ----- one session, as values -----

  datatype Session = Session(
    closed: bool, backlogLoaded: bool, lastWritten: nat, buffered: seq<AgentEvent>, out: seq<Item>)

  /** Whether a write of the event with this sequence succeeds. */
  type Writable = nat -> bool

  function WriteEvent(s: Session, v: AgentEvent, ok: bool): Session {
    if s.closed || v.sequence <= s.lastWritten then s
    else if ok then s.(out := s.out + [Written(v)], lastWritten := v.sequence)
    else s.(closed := true)
  }

  function WriteAll(s: Session, vs: seq<AgentEvent>, ok: Writable): Session
    decreases |vs|
  {
    if vs == [] then s else WriteAll(WriteEvent(s, vs[0], ok(vs[0].sequence)), vs[1..], ok)
  }

  function Receive(s: Session, v: AgentEvent, ok: bool): Session {
    if s.closed then s
    else if !s.backlogLoaded then s.(buffered := s.buffered + [v])
    else WriteEvent(s, v, ok)
  }

  /** A live message: anything that is not a public event of this run is ignored. */
  function Heard(c: Codec, runId: string, s: Session, message: string, ok: bool): Session {
    match c.parse(message)
    case None => s
    case Some(v) => if IsPublicAgentEvent(v, runId) then Receive(s, AsEvent(v), ok) else s
  }

  /** A published event passes the parse and the filter of the message handler. */
  lemma PublishedIsReceived(c: Codec, runId: string, s: Session, e: AgentEvent, ok: bool)
    requires Faithful(c) && Genuine(e) && IsPublicAgentEvent(e.json, runId)
    ensures Heard(c, runId, s, c.stringify(e.json), ok) == Receive(s, e, ok)
  {
    assert c.parse(c.stringify(e.json)) == Some(e.json);
  }

  predicate Before(a: AgentEvent, b: AgentEvent) {
    a.sequence < b.sequence
  }

  function SortBySequence(vs: seq<AgentEvent>): seq<AgentEvent> {
    Sort(Before, vs)
  }

  function Flush(s: Session, durable: seq<AgentEvent>, ok: Writable): Session {
    if s.closed then s
    else WriteAll(s, SortBySequence(durable + s.buffered), ok).(backlogLoaded := true)
  }

  function Beat(s: Session, ok: bool): Session {
    if s.closed then s
    else if ok then s.(out := s.out + [Heartbeat])
    else s.(closed := true)
  }

  function Opened(last: Option<nat>): Session {
    Session(false, false, last.GetOr(0), [], [])
  }

  // ----- the session object -----

  class StreamSession {
    const codec: Codec
    const runId: string
    var closed: bool
    var backlogLoaded: bool
    var lastWrittenSequence: nat
    var bufferedEvents: seq<AgentEvent>
    var sent: string
    ghost var out: seq<Item>

    ghost predicate Valid()
      reads this
    {
      sent == Render(codec, out)
    }

    ghost function View(): Session
      reads this
    {
      Session(closed, backlogLoaded, lastWrittenSequence, bufferedEvents, out)
    }

    constructor (codec: Codec, runId: string, lastEventId: Option<nat>)
      ensures Valid() && View() == Opened(lastEventId)
      ensures this.codec == codec && this.runId == runId
    {
      this.codec, this.runId := codec, runId;
      closed, backlogLoaded := false, false;
      lastWrittenSequence := lastEventId.GetOr(0);
      bufferedEvents, sent, out := [], "", [];
    }

    method MessageHandler(message: string, ok: bool)
      requires Valid()
      modifies this
      ensures Valid()
      ensures View() == Heard(codec, runId, old(View()), message, ok)
    {
      match codec.parse(message)
      case None =>
      case Some(v) =>
        if !IsPublicAgentEvent(v, runId) || closed {
          return;
        }
        if !backlogLoaded {
          bufferedEvents := bufferedEvents + [AsEvent(v)];
          return;
        }
        Write(AsEvent(v), ok);
    }

    method Write(v: AgentEvent, ok: bool)
      requires Valid()
      modifies this
      ensures Valid() && View() == WriteEvent(old(View()), v, ok)
    {
      if closed || v.sequence <= lastWrittenSequence {
        return;
      }
      if ok {
        AppendItem(codec, out, Written(v));
        assert RenderItem(codec, Written(v)) == ToSseFrame(codec, v);
        sent, out := sent + ToSseFrame(codec, v), out + [Written(v)];
        lastWrittenSequence := v.sequence;
      } else {
        closed := true;
      }
    }

    method WriteHeartbeat(ok: bool)
      requires Valid()
      modifies this
      ensures Valid() && View() == Beat(old(View()), ok)
    {
      if closed {
        return;
      }
      if ok {
        AppendItem(codec, out, Heartbeat);
        sent := sent + HEARTBEAT_TEXT;
        out := out + [Heartbeat];
      } else {
        closed := true;
      }
    }

    /** The merge of the stored backlog with what arrived while it was being read. */
    method FlushBacklog(durableEvents: seq<AgentEvent>, ok: Writable)
      requires Valid()
      modifies this
      ensures Valid() && View() == Flush(old(View()), durableEvents, ok)
    {
      if closed {
        return;
      }
      var merged := SortBySequence(durableEvents + bufferedEvents);
      ghost var whole := WriteAll(View(), merged, ok);
      var i := 0;
      while i < |merged|
        invariant 0 <= i <= |merged| && Valid()
        invariant WriteAll(View(), merged[i..], ok) == whole
      {
        assert merged[i..][1..] == merged[i + 1..];
        Write(merged[i], ok(merged[i].sequence));
        i := i + 1;
      }
      backlogLoaded := true;
    }
  }

  // ----- what a sorted merge writes -----

  /** The sequence numbers written so far. */
  function Numbers(items: seq<Item>): seq<nat> {
    if items == [] then []
    else
      var last := items[|items| - 1];
      Numbers(items[..|items| - 1]) + (if last.Heartbeat? then [] else [last.event.sequence])
  }

  lemma AppendNumber(items: seq<Item>, item: Item)
    ensures Numbers(items + [item]) == Numbers(items) + (if item.Heartbeat? then [] else [item.event.sequence])
  {
    assert (items + [item])[..|items|] == items;
  }

  ghost predicate Increasing(ns: seq<nat>) {
    forall i, j | 0 <= i < j < |ns| :: ns[i] < ns[j]
  }

  ghost predicate Sorted(vs: seq<AgentEvent>) {
    forall i, j | 0 <= i < j < |vs| :: vs[i].sequence <= vs[j].sequence
  }

  ghost predicate Has(vs: seq<AgentEvent>, x: nat) {
    exists v | v in vs :: v.sequence == x
  }

  /**
   `ns` are in increasing order, all expected, and miss nothing expected between `start` and
   `last`, which is the greatest of them.
   */
  ghost predicate Covers(ns: seq<nat>, start: nat, last: nat, expected: iset<nat>) {
    && Increasing(ns)
    && (forall n | n in ns :: start < n && n in expected)
    && last == (if ns == [] then start else ns[|ns| - 1])
    && (forall x | x in expected && start < x <= last :: x in ns)
  }

  lemma CoversOneMore(ns: seq<nat>, start: nat, last: nat, expected: iset<nat>, x: nat)
    requires Covers(ns, start, last, expected)
    requires last < x && x in expected
    requires forall y | y in expected && last < y <= x :: y == x
    ensures Covers(ns + [x], start, x, expected)
  {
    var ms := ns + [x];
    assert start <= last by {
      assert ns != [] ==> ns[|ns| - 1] in ns;
    }
    forall n | n in ms ensures start < n && n in expected {
      assert n in ns || n == x;
    }
    forall i, j | 0 <= i < j < |ms| ensures ms[i] < ms[j] {
      assert ns != [] ==> forall k | 0 <= k < |ns| :: ns[k] <= last;
    }
    forall y | y in expected && start < y <= x ensures y in ms {
      assert y in ns || y == x;
    }
  }

  lemma WriteAddsOne(s: Session, v: AgentEvent, ok: bool)
    ensures var r := WriteEvent(s, v, ok);
            && (!r.closed ==> v.sequence <= r.lastWritten) && s.lastWritten <= r.lastWritten
            && (if !s.closed && v.sequence > s.lastWritten && ok
                then r.lastWritten == v.sequence && Numbers(r.out) == Numbers(s.out) + [v.sequence]
                else r.lastWritten == s.lastWritten && r.out == s.out)
            && forall i | i in r.out :: i in s.out || i == Written(v)
  {
    AppendNumber(s.out, Written(v));
  }

  /** Writing an expected event after every smaller one keeps the response complete. */
  lemma WriteCovers(s: Session, v: AgentEvent, ok: bool, start: nat, expected: iset<nat>)
    requires Covers(Numbers(s.out), start, s.lastWritten, expected) && v.sequence in expected
    requires forall y | y in expected && s.lastWritten < y <= v.sequence :: y == v.sequence
    ensures var r := WriteEvent(s, v, ok);
            && Covers(Numbers(r.out), start, r.lastWritten, expected)
            && (!r.closed ==> v.sequence <= r.lastWritten) && s.lastWritten <= r.lastWritten
            && (r.lastWritten == s.lastWritten || r.lastWritten == v.sequence)
            && forall i | i in r.out :: i in s.out || i == Written(v)
  {
    WriteAddsOne(s, v, ok);
    if !s.closed && v.sequence > s.lastWritten && ok {
      CoversOneMore(Numbers(s.out), start, s.lastWritten, expected, v.sequence);
    }
  }

  lemma SortedMergeIsSorted(vs: seq<AgentEvent>)
    ensures Sorted(SortBySequence(vs))
    ensures forall v :: v in SortBySequence(vs) <==> v in vs
  {
    var sorted := SortBySequence(vs);
    assert Weak(Before);
    SortIsOrdered(Before, vs);
    forall i, j | 0 <= i < j < |sorted| ensures sorted[i].sequence <= sorted[j].sequence {
      assert !Before(sorted[j], sorted[i]);
    }
    forall v ensures v in sorted <==> v in vs {
      SortKeepsMembers(Before, vs, v);
    }
  }

  /** Writing a sorted list keeps the response complete, and stops only when it closes. */
  lemma {:induction false} WriteAllCovers(s: Session, vs: seq<AgentEvent>, ok: Writable, start: nat,
                                          expected: iset<nat>)
    requires Sorted(vs)
    requires Covers(Numbers(s.out), start, s.lastWritten, expected)
    requires forall v | v in vs :: v.sequence in expected
    requires forall x | x in expected && x > s.lastWritten :: Has(vs, x)
    ensures var r := WriteAll(s, vs, ok);
            && Covers(Numbers(r.out), start, r.lastWritten, expected)
            && (!r.closed ==> forall x | x in expected :: x <= r.lastWritten)
            && (forall i | i in r.out :: i in s.out || (i.Written? && i.event in vs))
            && r.backlogLoaded == s.backlogLoaded && r.buffered == s.buffered && (s.closed ==> r == s)
    decreases |vs|
  {
    if vs == [] {
      forall x | x in expected ensures x <= s.lastWritten {
        var missed := Has(vs, x);
      }
    } else {
      var v := vs[0];
      var t := WriteEvent(s, v, ok(v.sequence));
      FirstIsNext(vs, s.lastWritten, expected);
      WriteCovers(s, v, ok(v.sequence), start, expected);
      if !t.closed {
        RestHasLater(vs, s.lastWritten, t.lastWritten, expected);
        WriteAllCovers(t, vs[1..], ok, start, expected);
      } else {
        ClosedWritesNothing(t, vs[1..], ok);
      }
    }
  }

  lemma FirstIsNext(vs: seq<AgentEvent>, last: nat, expected: iset<nat>)
    requires Sorted(vs) && vs != [] && forall x | x in expected && x > last :: Has(vs, x)
    ensures forall y | y in expected && last < y <= vs[0].sequence :: y == vs[0].sequence
  {
    forall y | y in expected && last < y <= vs[0].sequence ensures y == vs[0].sequence {
      var u :| u in vs && u.sequence == y;
    }
  }

  lemma RestHasLater(vs: seq<AgentEvent>, before: nat, last: nat, expected: iset<nat>)
    requires vs != [] && before <= last && vs[0].sequence <= last
    requires forall x | x in expected && x > before :: Has(vs, x)
    ensures forall x | x in expected && x > last :: Has(vs[1..], x)
  {
    forall x | x in expected && x > last ensures Has(vs[1..], x) {
      var u :| u in vs && u.sequence == x;
      assert vs == [vs[0]] + vs[1..];
      assert u in vs[1..];
    }
  }

  lemma {:induction false} ClosedWritesNothing(s: Session, vs: seq<AgentEvent>, ok: Writable)
    requires s.closed
    ensures WriteAll(s, vs, ok) == s
    decreases |vs|
  {
    if vs != [] {
      ClosedWritesNothing(s, vs[1..], ok);
    }
  }
}
