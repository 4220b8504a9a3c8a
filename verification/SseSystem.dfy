/**
 One session running beside the emitter: every interleaving of inserting, publishing,
 subscribing, reading the backlog, receiving and closing.
 */
module SseSystem {
  import opened Results
  import opened AgentEvents
  import opened SseServer
  import opened Runs

  datatype Phase = Connecting | Subscribed | Loaded | Live

  /**
   The run's log (entry i has sequence i + 1), what was published of it, and one session: the
   messages in flight to it and those it was given. `lost` are the entries whose publication
   never happened.
   */
  datatype System = System(
    runId: string, log: seq<AgentEvent>, unpublished: bool, published: iset<nat>, lost: iset<nat>,
    last: Option<nat>, phase: Phase, channel: seq<nat>, inbox: seq<nat>, loadedTo: nat, session: Session)

  datatype Step =
    | InsertEvent(e: AgentEvent)
    | Publish
    | LosePublish       // the emitter stops between its insert and its publish
    | Subscribe
    | LoadBacklog
    | FlushBacklog(writable: Writable)
    | Deliver(ok: bool)
    | SendHeartbeat(ok: bool)
    | Close

  /** An event whose frame a client accepts. */
  ghost predicate Storable(e: AgentEvent) {
    Genuine(e) && PayloadAcceptable(e.json)
  }

  /** An entry of this run's log: a message handler takes it for a public event of the run. */
  ghost predicate Entry(runId: string, e: AgentEvent) {
    Storable(e) && IsPublicAgentEvent(e.json, runId)
  }

  /** The log entries above Last-Event-ID, out of the first `upTo`. */
  function DurableEvents(log: seq<AgentEvent>, last: Option<nat>, upTo: nat): seq<AgentEvent>
    requires upTo <= |log|
  {
    if last.GetOr(0) <= upTo then log[last.GetOr(0)..upTo] else []
  }

  ghost predicate Can(s: System, step: Step) {
    match step
    case InsertEvent(e) => !s.unpublished && Entry(s.runId, e) && e.sequence == |s.log| + 1
    case Publish => s.unpublished
    case LosePublish => s.unpublished
    case Subscribe => s.phase == Connecting && !s.session.closed
    case LoadBacklog => s.phase == Subscribed && !s.session.closed
    case FlushBacklog(_) => s.phase == Loaded && s.loadedTo <= |s.log|
    case Deliver(_) => s.channel != [] && 0 < s.channel[0] <= |s.log|
    case SendHeartbeat(_) => s.phase != Connecting
    case Close => true
  }

  /** The message in front of the channel is the JSON text of its log entry. */
  ghost function Do(c: Codec, s: System, step: Step): System
    requires Can(s, step)
  {
    match step
    case InsertEvent(e) => s.(log := s.log + [e], unpublished := true)
    case Publish =>
      s.(published := s.published + iset{|s.log|}, unpublished := false,
         channel := if s.phase == Connecting then [] else s.channel + [|s.log|])
    case LosePublish => s.(lost := s.lost + iset{|s.log|}, unpublished := false)
    case Subscribe => s.(phase := Subscribed)
    case LoadBacklog => s.(phase := Loaded, loadedTo := |s.log|)
    case FlushBacklog(writable) =>
      s.(phase := Live, session := Flush(s.session, DurableEvents(s.log, s.last, s.loadedTo), writable))
    case Deliver(ok) => Taken(s, Heard(c, s.runId, s.session, c.stringify(s.log[s.channel[0] - 1].json), ok))
    case SendHeartbeat(ok) => s.(session := Beat(s.session, ok))
    case Close => s.(session := s.session.(closed := true))
  }

  ghost function Taken(s: System, session: Session): System
    requires s.channel != []
  {
    s.(channel := s.channel[1..], inbox := s.inbox + [s.channel[0]], session := session)
  }

  ghost function Stream(c: Codec): Machine<System, Step> {
    Machine((s, x) => Can(s, x), (s, x) => if Can(s, x) then Do(c, s, x) else s)
  }

  ghost predicate LogPublic(s: System) {
    forall e | e in s.log :: Entry(s.runId, e)
  }

  /** A session that has not subscribed yet, beside any log of its run, published or not. */
  ghost predicate Initial(s: System) {
    && LogValid(s.log, s.unpublished, s.published, s.lost) && LogPublic(s)
    && s.phase == Connecting && s.channel == s.inbox == [] && s.loadedTo == 0
    && s.session == Opened(s.last)
  }

  ghost predicate Numbered(log: seq<AgentEvent>) {
    forall i | 0 <= i < |log| :: log[i].sequence == i + 1
  }

  ghost predicate LogValid(log: seq<AgentEvent>, unpublished: bool, published: iset<nat>, lost: iset<nat>) {
    && Numbered(log)
    && (forall x | x in published :: 0 < x <= |log| && (unpublished ==> x < |log|))
    && (unpublished ==> log != [])
    && (forall x | x in lost :: 0 < x <= |log| && x !in published && (unpublished ==> x < |log|))
    && (forall x: nat | 0 < x <= |log| :: x in published || x in lost || (unpublished && x == |log|))
  }

  function Start(s: System): nat {
    s.last.GetOr(0)
  }

  /** Messages reach the session once each, in publication order. */
  ghost predicate ChannelValid(phase: Phase, inbox: seq<nat>, channel: seq<nat>, published: iset<nat>, loadedTo: nat) {
    && Increasing(inbox + channel)
    && (forall x | x in inbox :: x in published)
    && (forall x | x in channel :: x in published)
    && (phase == Connecting ==> inbox == channel == [])
    && (phase == Loaded || phase == Live ==> forall x | x in published :: x <= loadedTo || x in inbox || x in channel)
  }

  /** What the session has been given: the backlog it read and the messages delivered to it. */
  ghost function GivenBy(loadedTo: nat, inbox: seq<nat>): iset<nat> {
    iset x: nat | x <= loadedTo || x in inbox
  }

  ghost function Given(s: System): iset<nat> {
    GivenBy(s.loadedTo, s.inbox)
  }

  /** Every event that was written is an entry of the log. */
  ghost predicate WrittenFrom(items: seq<Item>, log: seq<AgentEvent>) {
    forall i | i in items && i.Written? :: i.event in log
  }

  /** A response that covers what it was given, up to its last write. */
  ghost predicate LiveValid(session: Session, start: nat, given: iset<nat>) {
    && (session.closed || session.backlogLoaded)
    && Covers(Numbers(session.out), start, session.lastWritten, given)
    && (!session.closed ==> forall x | x in given :: x <= session.lastWritten)
  }

  ghost predicate SessionValid(phase: Phase, log: seq<AgentEvent>, inbox: seq<nat>, loadedTo: nat, start: nat,
                               session: Session) {
    && loadedTo <= |log| && WrittenFrom(session.out, log)
    && if phase == Live then LiveValid(session, start, GivenBy(loadedTo, inbox))
       else
         && !session.backlogLoaded && session.lastWritten == start && Numbers(session.out) == []
         && (session.closed || Holds(session.buffered, inbox, log))
  }

  /** The buffered events are the log's, with the sequences in the inbox. */
  ghost predicate Holds(vs: seq<AgentEvent>, inbox: seq<nat>, log: seq<AgentEvent>) {
    |vs| == |inbox| && forall j | 0 <= j < |vs| :: vs[j].sequence == inbox[j] && vs[j] in log
  }

  ghost predicate Inv(s: System) {
    && LogValid(s.log, s.unpublished, s.published, s.lost)
    && ChannelValid(s.phase, s.inbox, s.channel, s.published, s.loadedTo)
    && SessionValid(s.phase, s.log, s.inbox, s.loadedTo, Start(s), s.session)
  }

  // ----- the invariant is inductive -----

  lemma InitialInv(s: System)
    requires Initial(s)
    ensures Inv(s)
  {
  }

  predicate ByEmitter(step: Step) {
    step.InsertEvent? || step.Publish? || step.LosePublish?
  }

  lemma EmitterKeepsLog(c: Codec, s: System, step: Step)
    requires Inv(s) && Can(s, step) && ByEmitter(step)
    ensures var t := Do(c, s, step); LogValid(t.log, t.unpublished, t.published, t.lost)
  {
    var t := Do(c, s, step);
    forall x: nat | 0 < x <= |t.log| ensures x in t.published || x in t.lost || (t.unpublished && x == |t.log|) {
      assert x <= |s.log| ==> x in s.published || x in s.lost || (s.unpublished && x == |s.log|);
    }
  }

  /** A publication has a higher number than every one before. */
  lemma PublishKeepsChannel(phase: Phase, inbox: seq<nat>, channel: seq<nat>, published: iset<nat>, loadedTo: nat,
                            n: nat)
    requires ChannelValid(phase, inbox, channel, published, loadedTo) && forall x | x in published :: x < n
    requires phase != Connecting
    ensures ChannelValid(phase, inbox, channel + [n], published + iset{n}, loadedTo)
  {
    var all := inbox + channel;
    assert inbox + (channel + [n]) == all + [n];
    forall i | 0 <= i < |all| ensures all[i] < n {
      assert all[i] in inbox || all[i] in channel;
    }
    forall x | x in published + iset{n}
      ensures x <= loadedTo || x in inbox || x in channel + [n] || phase == Subscribed
    {
      assert x in published || x in [n];
    }
  }

  lemma EmitterKeepsSession(log: seq<AgentEvent>, e: AgentEvent, phase: Phase, inbox: seq<nat>, loadedTo: nat,
                            start: nat, session: Session)
    requires SessionValid(phase, log, inbox, loadedTo, start, session)
    ensures SessionValid(phase, log + [e], inbox, loadedTo, start, session)
  {
  }

  lemma EmitterKeepsInv(c: Codec, s: System, step: Step)
    requires Inv(s) && Can(s, step) && ByEmitter(step)
    ensures Inv(Do(c, s, step))
  {
    EmitterKeepsLog(c, s, step);
    match step
    case InsertEvent(e) => EmitterKeepsSession(s.log, e, s.phase, s.inbox, s.loadedTo, Start(s), s.session);
    case Publish =>
      if s.phase != Connecting {
        PublishKeepsChannel(s.phase, s.inbox, s.channel, s.published, s.loadedTo, |s.log|);
      }
    case LosePublish =>
  }

  lemma FlushIsValid(s: System, writable: Writable)
    requires Numbered(s.log) && s.phase == Loaded && !s.session.closed
    requires SessionValid(s.phase, s.log, s.inbox, s.loadedTo, Start(s), s.session)
    ensures var session := Flush(s.session, DurableEvents(s.log, s.last, s.loadedTo), writable);
            LiveValid(session, Start(s), Given(s)) && WrittenFrom(session.out, s.log)
  {
    var all := DurableEvents(s.log, s.last, s.loadedTo) + s.session.buffered;
    SortedMergeIsSorted(all);
    MergeHasEverything(s, all);
    WriteAllCovers(s.session, SortBySequence(all), writable, Start(s), Given(s));
  }

  lemma FlushKeepsInv(c: Codec, s: System, step: Step)
    requires Inv(s) && Can(s, step) && step.FlushBacklog?
    ensures Inv(Do(c, s, step))
  {
    if !s.session.closed {
      FlushIsValid(s, step.writable);
    }
  }

  /** Only the numbers of the log, the backlog and the buffer: all that the merge depends on. */
  ghost predicate MergeReady(s: System, all: seq<AgentEvent>) {
    && Numbered(s.log) && s.loadedTo <= |s.log| && Holds(s.session.buffered, s.inbox, s.log)
    && all == DurableEvents(s.log, s.last, s.loadedTo) + s.session.buffered
  }

  lemma MergedIsGiven(s: System, all: seq<AgentEvent>, v: AgentEvent)
    requires MergeReady(s, all) && v in all
    ensures v in s.log && v.sequence in Given(s)
  {
    var durable := DurableEvents(s.log, s.last, s.loadedTo);
    if v in durable {
      var i :| 0 <= i < |durable| && durable[i] == v;
      assert v == s.log[Start(s) + i];
    } else {
      var j :| 0 <= j < |s.inbox| && s.session.buffered[j] == v;
      assert s.inbox[j] in s.inbox;
    }
  }

  lemma GivenIsMerged(s: System, all: seq<AgentEvent>, x: nat)
    requires MergeReady(s, all) && x in Given(s) && x > Start(s)
    ensures exists v | v in all :: v.sequence == x
  {
    var durable := DurableEvents(s.log, s.last, s.loadedTo);
    if x <= s.loadedTo {
      assert durable[x - 1 - Start(s)] == s.log[x - 1];
      assert s.log[x - 1] in all;
    } else {
      var j :| 0 <= j < |s.inbox| && s.inbox[j] == x;
      assert s.session.buffered[j] in all;
    }
  }

  lemma MergeHasEverything(s: System, all: seq<AgentEvent>)
    requires MergeReady(s, all)
    ensures forall v | v in all :: v in s.log && v.sequence in Given(s)
    ensures forall x | x in Given(s) && x > Start(s) :: exists v | v in all :: v.sequence == x
  {
    forall v | v in all ensures v in s.log && v.sequence in Given(s) {
      MergedIsGiven(s, all, v);
    }
    forall x | x in Given(s) && x > Start(s) ensures exists v | v in all :: v.sequence == x {
      GivenIsMerged(s, all, x);
    }
  }

  lemma DeliveryIsNext(inbox: seq<nat>, channel: seq<nat>)
    requires Increasing(inbox + channel) && channel != []
    ensures (inbox + [channel[0]]) + channel[1..] == inbox + channel
    ensures forall x | x in inbox :: x < channel[0]
  {
    assert channel == [channel[0]] + channel[1..];
    assert (inbox + channel)[|inbox|] == channel[0];
    forall x | x in inbox ensures x < channel[0] {
      var i :| 0 <= i < |inbox| && inbox[i] == x;
      assert (inbox + channel)[i] == x;
    }
  }

  /** A delivered event at or below the last write is one that was written. */
  lemma DeliverKeepsCover(session: Session, start: nat, loadedTo: nat, inbox: seq<nat>, x: nat)
    requires LiveValid(session, start, GivenBy(loadedTo, inbox)) && forall y | y in inbox :: y < x
    ensures Covers(Numbers(session.out), start, session.lastWritten, GivenBy(loadedTo, inbox + [x]))
  {
    var ns, last, given := Numbers(session.out), session.lastWritten, GivenBy(loadedTo, inbox);
    if start < x <= last {
      assert last in ns;
      assert last in given;
      assert x in given && x in ns;
    }
    assert forall y | y in GivenBy(loadedTo, inbox + [x]) :: y in given || y == x;
  }

  lemma ReceiveIsValid(session: Session, start: nat, loadedTo: nat, inbox: seq<nat>, v: AgentEvent, ok: bool)
    requires LiveValid(session, start, GivenBy(loadedTo, inbox)) && forall y | y in inbox :: y < v.sequence
    ensures LiveValid(Receive(session, v, ok), start, GivenBy(loadedTo, inbox + [v.sequence]))
    ensures forall i | i in Receive(session, v, ok).out :: i in session.out || i == Written(v)
  {
    var given := GivenBy(loadedTo, inbox + [v.sequence]);
    DeliverKeepsCover(session, start, loadedTo, inbox, v.sequence);
    assert forall y | y in given :: y in GivenBy(loadedTo, inbox) || y == v.sequence;
    if !session.closed {
      WriteCovers(session, v, ok, start, given);
    }
  }

  lemma BufferIsValid(buffered: seq<AgentEvent>, inbox: seq<nat>, log: seq<AgentEvent>, v: AgentEvent)
    requires Holds(buffered, inbox, log) && v in log
    ensures Holds(buffered + [v], inbox + [v.sequence], log)
  {
  }

  lemma ReceiveKeepsSession(s: System, v: AgentEvent, ok: bool)
    requires SessionValid(s.phase, s.log, s.inbox, s.loadedTo, Start(s), s.session)
    requires v in s.log && forall y | y in s.inbox :: y < v.sequence
    ensures SessionValid(s.phase, s.log, s.inbox + [v.sequence], s.loadedTo, Start(s), Receive(s.session, v, ok))
  {
    if s.phase == Live {
      ReceiveIsValid(s.session, Start(s), s.loadedTo, s.inbox, v, ok);
    } else if !s.session.closed {
      BufferIsValid(s.session.buffered, s.inbox, s.log, v);
    }
  }

  lemma DeliverKeepsInv(c: Codec, s: System, step: Step)
    requires Inv(s) && Can(s, step) && step.Deliver? && Faithful(c) && LogPublic(s)
    ensures Inv(Do(c, s, step))
  {
    var v := s.log[s.channel[0] - 1];
    assert Entry(s.runId, v);
    PublishedIsReceived(c, s.runId, s.session, v, step.ok);
    DeliveryIsNext(s.inbox, s.channel);
    ReceiveKeepsSession(s, v, step.ok);
    TakenIsValid(s, Receive(s.session, v, step.ok));
  }

  lemma TakenIsValid(s: System, session: Session)
    requires Inv(s) && s.channel != [] && s.phase != Connecting
    requires (s.inbox + [s.channel[0]]) + s.channel[1..] == s.inbox + s.channel
    requires SessionValid(s.phase, s.log, s.inbox + [s.channel[0]], s.loadedTo, Start(s), session)
    ensures Inv(Taken(s, session))
  {
    assert forall x | x in s.channel :: x == s.channel[0] || x in s.channel[1..];
  }

  lemma BeatIsValid(session: Session, ok: bool, log: seq<AgentEvent>)
    requires WrittenFrom(session.out, log)
    ensures var t := Beat(session, ok);
            && WrittenFrom(t.out, log) && Numbers(t.out) == Numbers(session.out)
            && t.backlogLoaded == session.backlogLoaded && t.lastWritten == session.lastWritten
            && t.buffered == session.buffered && (session.closed ==> t.closed)
  {
    AppendNumber(session.out, Heartbeat);
  }

  /** A session that differs only in heartbeats, or in being closed. */
  lemma QuietKeepsSession(s: System, session: Session)
    requires SessionValid(s.phase, s.log, s.inbox, s.loadedTo, Start(s), s.session)
    requires WrittenFrom(session.out, s.log) && Numbers(session.out) == Numbers(s.session.out)
    requires session.backlogLoaded == s.session.backlogLoaded && session.lastWritten == s.session.lastWritten
    requires session.buffered == s.session.buffered && (s.session.closed ==> session.closed)
    ensures SessionValid(s.phase, s.log, s.inbox, s.loadedTo, Start(s), session)
  {
  }

  lemma HeartbeatKeepsInv(c: Codec, s: System, step: Step)
    requires Inv(s) && Can(s, step) && step.SendHeartbeat?
    ensures Inv(Do(c, s, step))
  {
    BeatIsValid(s.session, step.ok, s.log);
    QuietKeepsSession(s, Beat(s.session, step.ok));
  }

  lemma CloseKeepsInv(c: Codec, s: System, step: Step)
    requires Inv(s) && Can(s, step) && step.Close?
    ensures Inv(Do(c, s, step))
  {
    QuietKeepsSession(s, s.session.(closed := true));
  }

  lemma OpeningKeepsInv(c: Codec, s: System, step: Step)
    requires Inv(s) && Can(s, step) && (step.Subscribe? || step.LoadBacklog?)
    ensures Inv(Do(c, s, step))
  {
  }

  lemma StepKeepsLogPublic(c: Codec, s: System, step: Step)
    requires Can(s, step) && LogPublic(s)
    ensures LogPublic(Do(c, s, step)) && Do(c, s, step).last == s.last
  {
  }

  lemma StepKeepsInv(c: Codec, s: System, step: Step)
    requires Faithful(c) && Inv(s) && LogPublic(s) && Can(s, step)
    ensures Inv(Do(c, s, step))
  {
    match step
    case FlushBacklog(_) => FlushKeepsInv(c, s, step);
    case Deliver(_) => DeliverKeepsInv(c, s, step);
    case InsertEvent(_) => EmitterKeepsInv(c, s, step);
    case Publish => EmitterKeepsInv(c, s, step);
    case LosePublish => EmitterKeepsInv(c, s, step);
    case SendHeartbeat(_) => HeartbeatKeepsInv(c, s, step);
    case Close => CloseKeepsInv(c, s, step);
    case _ => OpeningKeepsInv(c, s, step);
  }

  /** Every state of every run. */
  lemma {:induction false} RunKeepsInv(c: Codec, s: System, steps: seq<Step>, t: System)
    requires Faithful(c) && Inv(s) && LogPublic(s) && Run(Stream(c), s, steps, t)
    ensures Inv(t) && LogPublic(t) && s.last == t.last
    decreases |steps|
  {
    if steps != [] {
      StepKeepsInv(c, s, steps[0]);
      StepKeepsLogPublic(c, s, steps[0]);
      RunKeepsInv(c, Do(c, s, steps[0]), steps[1..], t);
    }
  }

  // ----- what the response holds -----

  ghost predicate Consecutive(ns: seq<nat>, start: nat) {
    forall i | 0 <= i < |ns| :: ns[i] == start + 1 + i
  }

  lemma {:induction false} FullIntervalIsConsecutive(ns: seq<nat>, start: nat)
    requires Increasing(ns) && forall n | n in ns :: start < n
    requires ns != [] ==> forall x | start < x <= ns[|ns| - 1] :: x in ns
    ensures Consecutive(ns, start)
  {
    if ns != [] {
      var most, last := ns[..|ns| - 1], ns[|ns| - 1];
      assert forall n | n in most :: n in ns;
      forall x | most != [] && start < x <= most[|most| - 1] ensures x in most {
        assert x in ns;
        var i :| 0 <= i < |ns| && ns[i] == x;
        assert most[|most| - 1] == ns[|ns| - 2];
      }
      FullIntervalIsConsecutive(most, start);
      forall i | 0 <= i < |most| ensures ns[i] < start + |ns| {
        assert ns[i] == most[i];
      }
      if start + |ns| in ns {
        var i :| 0 <= i < |ns| && ns[i] == start + |ns|;
        assert i == |ns| - 1;
      }
      assert last in ns;
      assert most != [] ==> ns[|ns| - 2] < last;
    }
  }

  /** An entry left unpublished between the backlog and the last write. */
  ghost predicate LeavesGap(s: System, x: nat) {
    x in s.lost && Start(s) < x && s.loadedTo < x < s.session.lastWritten
  }

  lemma LostIsNotWritten(s: System, x: nat)
    requires Inv(s) && s.phase == Live && LeavesGap(s, x)
    ensures !Consecutive(Numbers(s.session.out), Start(s))
  {
    var ns := Numbers(s.session.out);
    assert x !in Given(s);
    assert x !in ns;
    assert ns[|ns| - 1] == s.session.lastWritten;
    if Consecutive(ns, Start(s)) {
      ConsecutiveHasAll(ns, Start(s), x);
    }
  }

  lemma ConsecutiveHasAll(ns: seq<nat>, start: nat, x: nat)
    requires Consecutive(ns, start) && ns != [] && start < x <= ns[|ns| - 1]
    ensures x in ns
  {
    assert ns[x - start - 1] == x;
  }

  lemma InboxBeforeChannel(s: System, x: nat, y: nat)
    requires Increasing(s.inbox + s.channel) && x in s.inbox && y in s.channel
    ensures x < y
  {
    var j :| 0 <= j < |s.inbox| && s.inbox[j] == x;
    var i :| 0 <= i < |s.channel| && s.channel[i] == y;
    var all := s.inbox + s.channel;
    assert all[j] == x && all[|s.inbox| + i] == y;
  }

  lemma PublishedIsGiven(s: System, x: nat)
    requires Inv(s) && s.phase == Live && Numbers(s.session.out) != []
    requires Start(s) < x < s.session.lastWritten && !LeavesGap(s, x)
    ensures x in Given(s)
  {
    var last := s.session.lastWritten;
    assert last in Numbers(s.session.out);
    assert last in Given(s);
    if x > s.loadedTo {
      assert x in s.published;
      if x in s.channel {
        InboxBeforeChannel(s, last, x);
      }
    }
  }

  /**
   The sequences written follow one another without a gap exactly when no entry between the
   backlog that was read and the last write was left unpublished.
   */
  lemma GapExactly(s: System)
    requires Inv(s)
    ensures Consecutive(Numbers(s.session.out), Start(s)) <==> !exists x :: LeavesGap(s, x)
  {
    var ns, last := Numbers(s.session.out), s.session.lastWritten;
    if s.phase == Live {
      if x :| LeavesGap(s, x) {
        LostIsNotWritten(s, x);
      } else if ns != [] {
        forall x | Start(s) < x <= last ensures x in ns {
          if x < last {
            PublishedIsGiven(s, x);
          }
        }
        FullIntervalIsConsecutive(ns, Start(s));
      }
    }
  }

  lemma {:induction false} NumbersOfEvents(items: seq<Item>)
    ensures |Events(items)| == |Numbers(items)|
    ensures forall i | 0 <= i < |Events(items)| ::
              Events(items)[i].sequence == Numbers(items)[i] && Written(Events(items)[i]) in items
    decreases |items|
  {
    if items != [] {
      NumbersOfEvents(items[..|items| - 1]);
    }
  }

  /** `vs` is the stretch of the log that starts right after `start`. */
  ghost predicate Follows(log: seq<AgentEvent>, start: nat, vs: seq<AgentEvent>) {
    vs != [] ==> start + |vs| <= |log| && vs == log[start..start + |vs|]
  }

  /**
   Whatever the interleaving: once every insert is published, a session writes exactly a stretch
   of the log that starts right after its Last-Event-ID.
   */
  lemma SessionWritesTheLog(c: Codec, s: System, steps: seq<Step>, t: System)
    requires Faithful(c) && Initial(s) && Run(Stream(c), s, steps, t)
    requires forall x :: !LeavesGap(t, x)
    ensures Follows(t.log, Start(s), Events(t.session.out))
  {
    InitialInv(s);
    RunKeepsInv(c, s, steps, t);
    GapExactly(t);
    ConsecutiveIsLog(t);
  }

  lemma ConsecutiveIsLog(s: System)
    requires Inv(s) && Consecutive(Numbers(s.session.out), Start(s))
    ensures Follows(s.log, Start(s), Events(s.session.out))
  {
    var vs, start := Events(s.session.out), Start(s);
    NumbersOfEvents(s.session.out);
    forall i | 0 <= i < |vs| ensures start + i < |s.log| && vs[i] == s.log[start + i] {
      assert Written(vs[i]) in s.session.out;
      EventIsItsEntry(s, vs[i]);
    }
    if vs != [] {
      assert start + (|vs| - 1) < |s.log|;
      assert vs == s.log[start..start + |vs|];
    }
  }

  lemma EventIsItsEntry(s: System, v: AgentEvent)
    requires Numbered(s.log) && v in s.log
    ensures 0 < v.sequence <= |s.log| && s.log[v.sequence - 1] == v
  {
    var j :| 0 <= j < |s.log| && s.log[j] == v;
  }

  // ----- a lost publication leaves a gap -----

  function SampleJson(runId: string, n: nat): Json {
    Record(map["id" := Text("e"), "runId" := Text(runId), "sequence" := Numeric(Whole(n)), "type" := Text("agent.step"),
               "message" := Text(""), "createdAt" := Text("")])
  }

  lemma SampleIsFinite(runId: string, n: nat)
    requires n <= MAX_SAFE_INTEGER
    ensures Finite(SampleJson(runId, n))
  {
    var v := SampleJson(runId, n);
    SafeIsDouble(n);
    assert Finite(Numeric(Whole(n)));
    assert forall k | k in v.fields :: v.fields[k].Text? || v.fields[k] == Numeric(Whole(n));
  }

  lemma SampleIsPublic(runId: string, n: nat)
    requires n <= MAX_SAFE_INTEGER
    ensures IsPublicAgentEvent(SampleJson(runId, n), runId) && IsEvent(SampleJson(runId, n))
    ensures Entry(runId, AsEvent(SampleJson(runId, n)))
  {
    SampleIsFinite(runId, n);
    assert "agent.step" == EVENT_TYPES[2];
  }

  /** Three entries of one run, in order. */
  ghost predicate Three(runId: string, e1: AgentEvent, e2: AgentEvent, e3: AgentEvent) {
    && Entry(runId, e1) && Entry(runId, e2) && Entry(runId, e3)
    && e1.sequence == 1 && e2.sequence == 2 && e3.sequence == 3
  }

  function Fresh(runId: string): System {
    System(runId, [], false, iset{}, iset{}, None, Connecting, [], [], 0, Opened(None))
  }

  function LiveSession(last: nat, out: seq<Item>): Session {
    Session(false, true, last, [], out)
  }

  lemma OpensLive(c: Codec, runId: string) returns (steps: seq<Step>)
    ensures Run(Stream(c), Fresh(runId), steps, Fresh(runId).(phase := Live, session := LiveSession(0, [])))
  {
    var all: Writable := n => true;
    var s := Fresh(runId);
    var s1 := s.(phase := Subscribed);
    var s2 := s.(phase := Loaded);
    var s3 := s.(phase := Live, session := LiveSession(0, []));
    assert s2 == Do(c, s1, LoadBacklog);
    assert s3 == Do(c, s2, FlushBacklog(all));
    OneStep(Stream(c), s, Subscribe, s1);
    OneMore(Stream(c), s, [Subscribe], s1, LoadBacklog, s2);
    OneMore(Stream(c), s, [Subscribe] + [LoadBacklog], s2, FlushBacklog(all), s3);
    steps := [Subscribe] + [LoadBacklog] + [FlushBacklog(all)];
  }

  /** A live session with nothing in flight. */
  ghost predicate Idle(s: System) {
    && s.phase == Live && s.channel == [] && !s.unpublished && Numbered(s.log)
    && !s.session.closed && s.session.backlogLoaded && s.session.lastWritten <= |s.log|
  }

  function Emitted(s: System, e: AgentEvent): System {
    s.(log := s.log + [e], published := s.published + iset{e.sequence}, inbox := s.inbox + [e.sequence],
       session := s.session.(lastWritten := e.sequence, out := s.session.out + [Written(e)]))
  }

  /** An entry that is inserted, published and delivered is written. */
  lemma EmitsOne(c: Codec, s: System, e: AgentEvent) returns (steps: seq<Step>)
    requires Faithful(c) && Idle(s) && Entry(s.runId, e) && e.sequence == |s.log| + 1
    ensures Run(Stream(c), s, steps, Emitted(s, e)) && Idle(Emitted(s, e))
  {
    var s1 := s.(log := s.log + [e], unpublished := true);
    var s2 := s1.(published := s.published + iset{e.sequence}, channel := [e.sequence], unpublished := false);
    assert s2 == Do(c, s1, Publish);
    PublishedIsReceived(c, s.runId, s.session, e, true);
    assert s2.channel[1..] == [];
    assert Emitted(s, e) == Do(c, s2, Deliver(true));
    OneStep(Stream(c), s, InsertEvent(e), s1);
    OneMore(Stream(c), s, [InsertEvent(e)], s1, Publish, s2);
    OneMore(Stream(c), s, [InsertEvent(e)] + [Publish], s2, Deliver(true), Emitted(s, e));
    steps := [InsertEvent(e)] + [Publish] + [Deliver(true)];
  }

  function Forgotten(s: System, e: AgentEvent): System {
    s.(log := s.log + [e], lost := s.lost + iset{e.sequence})
  }

  /** The emitter stops between its insert and its publish. */
  lemma ForgetsOne(c: Codec, s: System, e: AgentEvent) returns (steps: seq<Step>)
    requires Idle(s) && Entry(s.runId, e) && e.sequence == |s.log| + 1
    ensures Run(Stream(c), s, steps, Forgotten(s, e)) && Idle(Forgotten(s, e))
  {
    var s1 := s.(log := s.log + [e], unpublished := true);
    assert Forgotten(s, e) == Do(c, s1, LosePublish);
    OneStep(Stream(c), s, InsertEvent(e), s1);
    OneMore(Stream(c), s, [InsertEvent(e)], s1, LosePublish, Forgotten(s, e));
    steps := [InsertEvent(e)] + [LosePublish];
  }

  /** The emitter stops between storing entry 2 and publishing it: the client is sent 1, then 3. */
  lemma LostPublicationLeavesAGap(c: Codec, runId: string, e1: AgentEvent, e2: AgentEvent, e3: AgentEvent)
    returns (s: System, steps: seq<Step>, t: System)
    requires Faithful(c) && Three(runId, e1, e2, e3)
    ensures Initial(s) && s.runId == runId && Run(Stream(c), s, steps, t)
    ensures t.session.out == [Written(e1), Written(e3)]
  {
    s := Fresh(runId);
    var s3 := s.(phase := Live, session := LiveSession(0, []));
    var s4 := Emitted(s3, e1);
    var s5 := Forgotten(s4, e2);
    t := Emitted(s5, e3);
    var zero := OpensLive(c, runId);
    var one := EmitsOne(c, s3, e1);
    var two := ForgetsOne(c, s4, e2);
    var three := EmitsOne(c, s5, e3);
    RunsJoin(Stream(c), s, zero, s3, one, s4);
    RunsJoin(Stream(c), s, zero + one, s4, two, s5);
    RunsJoin(Stream(c), s, zero + one + two, s5, three, t);
    steps := zero + one + two + three;
  }

  lemma TwoNumbers(a: AgentEvent, b: AgentEvent)
    ensures Numbers([Written(a), Written(b)]) == [a.sequence, b.sequence]
  {
    AppendNumber([], Written(a));
    AppendNumber([Written(a)], Written(b));
    assert [Written(a)] + [Written(b)] == [Written(a), Written(b)];
  }

  /** Every run's log can hold such events, so a client can be sent 1 and then 3. */
  lemma GapIsReachable(c: Codec, runId: string) returns (s: System, steps: seq<Step>, t: System)
    requires Faithful(c)
    ensures Initial(s) && s.runId == runId && Run(Stream(c), s, steps, t) && Numbers(t.session.out) == [1, 3]
  {
    SampleIsPublic(runId, 1);
    SampleIsPublic(runId, 2);
    SampleIsPublic(runId, 3);
    var e1, e2, e3 := AsEvent(SampleJson(runId, 1)), AsEvent(SampleJson(runId, 2)), AsEvent(SampleJson(runId, 3));
    s, steps, t := LostPublicationLeavesAGap(c, runId, e1, e2, e3);
    TwoNumbers(e1, e3);
  }
}
