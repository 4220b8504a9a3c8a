/**
 The stream from the log to onEvent: printing undone by parsing, cuts anywhere, and reconnection.
 */
module SseEndToEnd {
  import opened Results
  import opened SseLines
  import opened AgentEvents
  import opened SseClient
  import opened SseServer
  import opened SseSystem
  import opened Runs

  // ----- printing, then parsing -----

  function ItemLines(c: Codec, item: Item): seq<string> {
    match item
    case Heartbeat => [": heartbeat", ""]
    case Written(e) => [IdLine(e), EventLine(e), DataLine(c, e), ""]
  }

  ghost predicate AllStorable(es: seq<AgentEvent>) {
    forall e | e in es :: Storable(e)
  }

  ghost predicate Printable(items: seq<Item>) {
    forall i | i in items && i.Written? :: Storable(i.event)
  }

  function Message(v: Json): string {
    if v.Record? && IsText(v.fields, "message") then v.fields["message"].s else ""
  }

  function Payload(v: Json): Option<map<string, Json>> {
    if v.Record? && "payload" in v.fields && v.fields["payload"].Record? then Some(v.fields["payload"].fields) else None
  }

  /** What onEvent is meant to receive for an event of the log. */
  function Show(e: AgentEvent): ClientEvent {
    ClientEvent(e.sequence, e.kind, Message(e.json), Payload(e.json))
  }

  lemma ShowIsParsed(e: AgentEvent)
    requires Storable(e)
    ensures Show(e) == ToClientEvent(e.json)
  {
  }

  /** What parsing an item must give: nothing for a heartbeat, the same event for an event. */
  function OutcomeOf(item: Item): Parsed {
    match item
    case Heartbeat => Nothing
    case Written(e) => Event(Show(e))
  }

  function Outcomes(items: seq<Item>): seq<Parsed> {
    if items == [] then []
    else Outcomes(items[..|items| - 1]) + [OutcomeOf(items[|items| - 1])]
  }

  lemma NumeralIsUnbroken(s: string)
    requires IsNumeral(s)
    ensures Unbroken(s)
  {
  }

  lemma FrameText(a: string, b: string, d: string)
    ensures "id: " + a + "\nevent: " + b + "\ndata: " + d + "\n\n"
            == ("id: " + a) + "\n" + (("event: " + b) + "\n" + (("data: " + d) + "\n" + ("" + "\n" + "")))
  {
    assert "\nevent: " == "\n" + "event: " && "\ndata: " == "\n" + "data: " && "\n\n" == "\n" + ("" + "\n" + "");
  }

  lemma TakeThen(u: string, v: string, lines: seq<string>)
    requires Unbroken(u) && TakeLines(v, false) == Taken(lines, "")
    ensures TakeLines(u + "\n" + v, false) == Taken([u] + lines, "")
  {
    TakeTerminatedLine(u, v, false);
  }

  lemma FourLines(l1: string, l2: string, l3: string)
    requires Unbroken(l1) && Unbroken(l2) && Unbroken(l3)
    ensures TakeLines(l1 + "\n" + (l2 + "\n" + (l3 + "\n" + ("" + "\n" + ""))), false)
            == Taken([l1] + ([l2] + ([l3] + [""])), "")
  {
    var t4 := "" + "\n" + "";
    TakeThen("", "", []);
    assert [""] + [] == [""];
    var t3 := l3 + "\n" + t4;
    TakeThen(l3, t4, [""]);
    var t2 := l2 + "\n" + t3;
    TakeThen(l2, t3, [l3] + [""]);
    TakeThen(l1, t2, [l2] + ([l3] + [""]));
  }

  lemma BlankTakes()
    ensures TakeLines("\n", false) == Taken([""], "")
  {
    TakeTerminatedLine("", "", false);
    assert "" + "\n" + "" == "\n";
  }

  lemma LineAndBlankTake(u: string, v: string)
    requires Unbroken(u) && TakeLines(v, false) == Taken([""], "")
    ensures TakeLines(u + "\n" + v, false) == Taken([u, ""], "")
  {
    TakeThen(u, v, [""]);
    assert [u] + [""] == [u, ""];
  }

  lemma TwoBreaksTake(text: string, n: nat)
    requires |text| == n + 2 && Unbroken(text[..n]) && text[n] == '\n' && text[n + 1] == '\n'
    ensures TakeLines(text, false) == Taken([text[..n], ""], "")
  {
    var u := text[..n];
    assert text == u + "\n" + "\n";
    BlankTakes();
    LineAndBlankTake(u, "\n");
  }

  lemma HeartbeatTakes()
    ensures TakeLines(HEARTBEAT_TEXT, false) == Taken([": heartbeat", ""], "")
  {
    assert HEARTBEAT_TEXT[..11] == ": heartbeat" && Unbroken(": heartbeat");
    TwoBreaksTake(HEARTBEAT_TEXT, 11);
  }

  lemma EventTakes(c: Codec, e: AgentEvent)
    requires Faithful(c) && Storable(e)
    ensures TakeLines(ToSseFrame(c, e), false) == Taken([IdLine(e)] + ([EventLine(e)] + ([DataLine(c, e)] + [""])), "")
  {
    LinesAreUnbroken(c, e);
    FrameText(Numeral(e.sequence), e.kind, c.stringify(e.json));
    FourLines(IdLine(e), EventLine(e), DataLine(c, e));
  }

  lemma ItemTakes(c: Codec, item: Item)
    requires Faithful(c) && (item.Written? ==> Storable(item.event))
    ensures TakeLines(RenderItem(c, item), false) == Taken(ItemLines(c, item), "")
  {
    match item
    case Heartbeat =>
      HeartbeatTakes();
    case Written(e) =>
      EventTakes(c, e);
      assert [IdLine(e)] + ([EventLine(e)] + ([DataLine(c, e)] + [""])) == ItemLines(c, item);
  }

  lemma LinesAreUnbroken(c: Codec, e: AgentEvent)
    requires Faithful(c) && Storable(e)
    ensures Unbroken(IdLine(e)) && Unbroken(EventLine(e)) && Unbroken(DataLine(c, e))
  {
    NumeralIsUnbroken(Numeral(e.sequence));
    KindsAreUnbroken(e.kind);
    assert c.parse(c.stringify(e.json)) == Some(e.json);
  }

  lemma ItemParses(c: Codec, item: Item)
    requires Faithful(c) && (item.Written? ==> Storable(item.event))
    ensures ParseAll(c, EMPTY_FRAME, ItemLines(c, item)) == [OutcomeOf(item)]
    ensures FrameAfter(EMPTY_FRAME, ItemLines(c, item)) == EMPTY_FRAME
  {
    match item
    case Heartbeat =>
      assert [": heartbeat", ""][1..] == [""] && [""][1..] == [];
      assert ProcessLine(EMPTY_FRAME, ": heartbeat") == EMPTY_FRAME;
    case Written(e) =>
      FrameParses(c, e);
      ShowIsParsed(e);
      var l1, l2, l3 := IdLine(e), EventLine(e), DataLine(c, e);
      assert [l1, l2, l3, ""][1..] == [l2, l3, ""];
      assert [l2, l3, ""][1..] == [l3, ""] && [l3, ""][1..] == [""] && [""][1..] == [];
      assert l1 != "" && l2 != "" && l3 != "";
      var f1 := ProcessLine(EMPTY_FRAME, l1);
      var f2 := ProcessLine(f1, l2);
      var f3 := ProcessLine(f2, l3);
      assert ParseAll(c, f3, [""]) == [ParseAgentEvent(c, f3)] + ParseAll(c, EMPTY_FRAME, []);
      assert ParseAll(c, f2, [l3, ""]) == ParseAll(c, f3, [""]);
      assert ParseAll(c, f1, [l2, l3, ""]) == ParseAll(c, f2, [l3, ""]);
      assert FrameAfter(f3, [""]) == EMPTY_FRAME;
      assert FrameAfter(f2, [l3, ""]) == EMPTY_FRAME;
      assert FrameAfter(f1, [l2, l3, ""]) == EMPTY_FRAME;
  }

  /**
   Print, then parse: events and heartbeats in any order come back one for one, with the same
   sequence, type, message and payload.
   */
  lemma {:induction false} PrintThenParse(c: Codec, items: seq<Item>)
    requires Faithful(c) && Printable(items)
    ensures TakeLines(Render(c, items), false).rest == ""
    ensures TakeLines(Render(c, items), false).lines == Lines(Render(c, items))
    ensures ParseAll(c, EMPTY_FRAME, Lines(Render(c, items))) == Outcomes(items)
    ensures FrameAfter(EMPTY_FRAME, Lines(Render(c, items))) == EMPTY_FRAME
    decreases |items|
  {
    if items != [] {
      var most, last := items[..|items| - 1], items[|items| - 1];
      var a, b := Render(c, most), RenderItem(c, last);
      PrintThenParse(c, most);
      ItemTakes(c, last);
      TakenWhole(b);
      LinesOfConcat(a, b);
      ItemParses(c, last);
      ParseAllAppend(c, EMPTY_FRAME, Lines(a), ItemLines(c, last));
      FrameAfterAppend(EMPTY_FRAME, Lines(a), ItemLines(c, last));
    } else {
      assert Lines("") == [];
    }
  }

  lemma TakenWhole(b: string)
    requires TakeLines(b, false).rest == ""
    ensures Lines(b) == TakeLines(b, false).lines
  {
    LinesOfConcat(b, "");
    assert b + "" == b && Lines("") == [];
  }

  lemma {:induction false} FrameAfterAppend(frame: Frame, a: seq<string>, b: seq<string>)
    ensures FrameAfter(frame, a + b) == FrameAfter(FrameAfter(frame, a), b)
    decreases |a|
  {
    if a == [] {
      assert a + b == b;
    } else {
      assert (a + b)[1..] == a[1..] + b && (a + b)[0] == a[0];
      FrameAfterAppend(if a[0] == "" then EMPTY_FRAME else ProcessLine(frame, a[0]), a[1..], b);
    }
  }

  lemma FewerLinesParseToPrefix(c: Codec, some: seq<string>, all: seq<string>)
    requires some <= all
    ensures ParseAll(c, EMPTY_FRAME, some) <= ParseAll(c, EMPTY_FRAME, all)
  {
    assert all == some + all[|some|..];
    ParseAllAppend(c, EMPTY_FRAME, some, all[|some|..]);
  }

  lemma CutTakesPrefix(text: string, whole: string, eof: bool)
    requires text <= whole
    ensures TakeLines(text, eof).lines <= Lines(whole)
  {
    assert whole == text + whole[|text|..];
    TakenIsPrefix(text, whole[|text|..], eof);
  }

  /** A response cut at any character parses to a prefix of what the whole would have given. */
  lemma CutParsesToPrefix(c: Codec, items: seq<Item>, text: string, eof: bool) returns (n: nat)
    requires Faithful(c) && Printable(items) && text <= Render(c, items)
    ensures n <= |items|
    ensures ParseAll(c, EMPTY_FRAME, TakeLines(text, eof).lines) == Outcomes(items[..n])
  {
    PrintThenParse(c, items);
    n := PrefixOfOutcomes(c, items, text, Render(c, items), eof);
  }

  lemma PrefixOfOutcomes(c: Codec, items: seq<Item>, text: string, whole: string, eof: bool) returns (n: nat)
    requires text <= whole && ParseAll(c, EMPTY_FRAME, Lines(whole)) == Outcomes(items)
    ensures n <= |items|
    ensures ParseAll(c, EMPTY_FRAME, TakeLines(text, eof).lines) == Outcomes(items[..n])
  {
    CutTakesPrefix(text, whole, eof);
    var some := TakeLines(text, eof).lines;
    FewerLinesParseToPrefix(c, some, Lines(whole));
    n := |ParseAll(c, EMPTY_FRAME, some)|;
    OutcomesOfPrefix(items, n);
  }

  lemma {:induction false} OutcomesOfPrefix(items: seq<Item>, n: nat)
    requires n <= |Outcomes(items)|
    ensures |Outcomes(items)| == |items|
    ensures Outcomes(items[..n]) == Outcomes(items)[..n]
    decreases |items|
  {
    if items != [] {
      var most := items[..|items| - 1];
      OutcomesOfPrefix(most, if n < |Outcomes(most)| then n else |Outcomes(most)|);
      if n <= |most| {
        assert items[..n] == most[..n];
      } else {
        assert items[..n] == items;
      }
    }
  }

  // ----- filtering a stretch of the log -----

  function Shown(es: seq<AgentEvent>): (r: seq<ClientEvent>)
    ensures |r| == |es|
  {
    seq(|es|, i requires 0 <= i < |es| => Show(es[i]))
  }

  ghost predicate Ends(es: seq<AgentEvent>, n: nat) {
    0 < n <= |es| && es[n - 1].kind in TERMINAL_TYPES
  }

  /** The client was handed the first `n` of `es`, and its status says why it stopped there. */
  ghost predicate Handed(before: Client, after: Client, es: seq<AgentEvent>, n: nat) {
    && n <= |es| && after.handed == before.handed + Shown(es[..n])
    && after.status != ProtocolFailed
    && (forall i | 0 < i < n :: !Ends(es, i))
    && (after.status == Running ==> n == |es| && !Ends(es, n))
    && (after.status == Terminal ==> Ends(es, n))
    && (after.status != CallbackFailed ==>
          after.accepted == if n == 0 then before.accepted else Some(es[n - 1].sequence))
  }

  lemma {:induction false} SinkAllSnoc(cb: Callback, cl: Client, ps: seq<Parsed>, p: Parsed)
    ensures SinkAll(cb, cl, ps + [p]) == Sink(cb, SinkAll(cb, cl, ps), p)
    decreases |ps|
  {
    if ps == [] {
      assert [] + [p] == [p] && [p][1..] == [];
      assert SinkAll(cb, Sink(cb, cl, p), []) == Sink(cb, cl, p);
    } else {
      assert (ps + [p])[1..] == ps[1..] + [p];
      SinkAllSnoc(cb, Sink(cb, cl, ps[0]), ps[1..], p);
    }
  }

  ghost predicate Rising(es: seq<AgentEvent>, start: nat) {
    forall i | 0 <= i < |es| :: es[i].sequence == start + 1 + i
  }

  /** Events that follow the accepted one are all handed over, up to the first terminal one. */
  lemma {:induction false} FilterHandsOver(cb: Callback, cl: Client, items: seq<Item>) returns (n: nat)
    requires cl.status == Running && Rising(Events(items), cl.accepted.GetOr(0))
    ensures Handed(cl, SinkAll(cb, cl, Outcomes(items)), Events(items), n)
    decreases |items|
  {
    if items == [] {
      n := 0;
      assert cl.handed + [] == cl.handed;
    } else {
      var most, last := items[..|items| - 1], items[|items| - 1];
      FewerRise(items, cl.accepted.GetOr(0));
      n := FilterHandsOver(cb, cl, most);
      var mid := SinkAll(cb, cl, Outcomes(most));
      SinkAllSnoc(cb, cl, Outcomes(most), OutcomeOf(last));
      n := HandsOverLast(cb, cl, mid, Events(most), last, n);
    }
  }

  lemma FewerRise(items: seq<Item>, start: nat)
    requires items != [] && Rising(Events(items), start)
    ensures var es := Events(items[..|items| - 1]); es <= Events(items) && Rising(es, start)
  {
    var es, all, last := Events(items[..|items| - 1]), Events(items), items[|items| - 1];
    assert all == es + (if last.Heartbeat? then [] else [last.event]);
    forall i | 0 <= i < |es| ensures es[i].sequence == start + 1 + i {
      assert es[i] == all[i];
    }
  }

  lemma HandsOverLast(cb: Callback, cl: Client, mid: Client, es: seq<AgentEvent>, last: Item, n: nat)
    returns (m: nat)
    requires Handed(cl, mid, es, n)
    requires Rising(es + (if last.Heartbeat? then [] else [last.event]), cl.accepted.GetOr(0))
    ensures Handed(cl, Sink(cb, mid, OutcomeOf(last)), es + (if last.Heartbeat? then [] else [last.event]), m)
  {
    m := n;
    var all := es + (if last.Heartbeat? then [] else [last.event]);
    if mid.status != Running {
      HandedStays(cl, mid, es, all, n);
    } else if last.Written? {
      assert es[..|es|] == es;
      HandsOverOne(cb, cl, mid, es, last.event);
      m := n + 1;
    } else {
      assert all == es;
    }
  }

  lemma HandedStays(cl: Client, mid: Client, es: seq<AgentEvent>, all: seq<AgentEvent>, n: nat)
    requires Handed(cl, mid, es, n) && mid.status != Running && es <= all
    ensures Handed(cl, mid, all, n)
  {
    assert all[..n] == es[..n];
    assert forall i | 0 < i <= n :: Ends(es, i) == Ends(all, i);
  }

  lemma HandsOverOne(cb: Callback, cl: Client, mid: Client, es: seq<AgentEvent>, e: AgentEvent)
    requires Rising(es + [e], cl.accepted.GetOr(0))
    requires mid.status == Running && Handed(cl, mid, es, |es|)
    ensures Handed(cl, Sink(cb, mid, Event(Show(e))), es + [e], |es| + 1)
  {
    var all := es + [e];
    assert all[|es|] == e;
    assert all[..|all|] == all && all[..|es|] == es && es[..|es|] == es;
    assert mid.accepted.Some? ==> mid.accepted.value < e.sequence by {
      if es != [] {
        assert all[|es| - 1] == es[|es| - 1];
      }
    }
    assert Shown(all) == Shown(es) + [Show(e)];
    assert mid.handed + [Show(e)] == cl.handed + Shown(all);
    forall i | 0 < i < |all| ensures !Ends(all, i) {
      assert Ends(all, i) == Ends(es, i);
    }
    assert Ends(all, |all|) == (e.kind in TERMINAL_TYPES);
  }

  // ----- one response of the server -----

  /** The text a client got is some cut of what some session of this run's stream sent. */
  ghost predicate ServedBy(c: Codec, log: seq<AgentEvent>, last: Option<nat>, text: string) {
    exists s, steps, t :: SentBy(c, log, last, text, s, steps, t)
  }

  /** The session saw a prefix of the log, and every insert it depended on was published. */
  ghost predicate SentBy(c: Codec, log: seq<AgentEvent>, last: Option<nat>, text: string,
                         s: System, steps: seq<Step>, t: System)
  {
    && Initial(s) && s.last == last && Run(Stream(c), s, steps, t)
    && (forall x :: !LeavesGap(t, x))
    && t.log <= log && text <= Render(c, t.session.out)
  }

  /** A log whose entry i has sequence i + 1 and can be printed. */
  ghost predicate NumberedLog(log: seq<AgentEvent>) {
    AllStorable(log) && forall i | 0 <= i < |log| :: log[i].sequence == i + 1
  }

  /** The `m` entries after `start`; none when there are not that many. */
  function Stretch(shown: seq<ClientEvent>, start: nat, m: nat): seq<ClientEvent> {
    if start + m <= |shown| then shown[start..start + m] else []
  }

  predicate IsFinal(shown: seq<ClientEvent>, p: nat) {
    0 < p <= |shown| && shown[p - 1].kind in TERMINAL_TYPES
  }

  /** The positions, counted from 1, of the terminal events. */
  ghost function Finals(shown: seq<ClientEvent>): iset<nat> {
    iset p: nat | IsFinal(shown, p)
  }

  /** The `m`-th entry after `start` is terminal. */
  ghost predicate EndsAt(finals: iset<nat>, start: nat, m: nat) {
    0 < m && start + m in finals
  }

  /** `after` is `before` and the `m` entries after `last`, of which only the last may be terminal. */
  ghost predicate HandedStretch(shown: seq<ClientEvent>, finals: iset<nat>, last: Option<nat>,
                                before: seq<ClientEvent>, after: seq<ClientEvent>, m: nat)
  {
    var start := last.GetOr(0);
    && (m > 0 ==> start + m <= |shown|)
    && after == before + Stretch(shown, start, m)
    && forall i | 0 < i < m :: !EndsAt(finals, start, i)
  }

  function Reached(last: Option<nat>, m: nat): Option<nat> {
    if m == 0 then last else Some(last.GetOr(0) + m)
  }

  lemma {:induction false} EventsOfPrefix(items: seq<Item>, n: nat)
    requires n <= |items|
    ensures Events(items[..n]) <= Events(items)
    decreases |items|
  {
    if n < |items| {
      var most := items[..|items| - 1];
      EventsOfPrefix(most, n);
      assert most[..n] == items[..n];
    } else {
      assert items[..n] == items;
    }
  }

  lemma SentIsPrintable(log: seq<AgentEvent>, t: System)
    requires NumberedLog(log) && t.log <= log && Inv(t)
    ensures Printable(t.session.out)
  {
    forall i | i in t.session.out && i.Written? ensures Storable(i.event) {
      assert i.event in t.log;
      assert i.event in log;
    }
  }

  ghost predicate BodyPromise(shown: seq<ClientEvent>, finals: iset<nat>, last: Option<nat>,
                              before: seq<ClientEvent>, cl: Client, m: nat)
  {
    && HandedStretch(shown, finals, last, before, cl.handed, m)
    && cl.status != ProtocolFailed
    && (cl.status == Running ==> !EndsAt(finals, last.GetOr(0), m))
    && (cl.status == Terminal ==> EndsAt(finals, last.GetOr(0), m))
    && (cl.status != CallbackFailed ==> cl.accepted == Reached(last, m))
  }

  lemma HandedIsPromise(log: seq<AgentEvent>, last: Option<nat>, start: Client, cl: Client, es: seq<AgentEvent>, m: nat)
    requires start.accepted == last && Handed(start, cl, es, m) && Rising(es, last.GetOr(0))
    requires es != [] ==> last.GetOr(0) + |es| <= |log| && es == log[last.GetOr(0)..last.GetOr(0) + |es|]
    ensures BodyPromise(Shown(log), Finals(Shown(log)), last, start.handed, cl, m)
  {
    HandedIsStretch(log, last.GetOr(0), es, m);
    FinalsOfHanded(log, last.GetOr(0), es, m);
    PromiseFromHanded(Shown(log), Finals(Shown(log)), last, start, cl, es, m);
  }

  lemma SliceOfSlice<T>(log: seq<T>, start: nat, es: seq<T>, m: nat)
    requires m <= |es| && (es != [] ==> start + |es| <= |log| && es == log[start..start + |es|])
    ensures m > 0 ==> es[..m] == log[start..start + m]
  {
  }

  lemma HandedIsStretch(log: seq<AgentEvent>, start: nat, es: seq<AgentEvent>, m: nat)
    requires m <= |es|
    requires es != [] ==> start + |es| <= |log| && es == log[start..start + |es|]
    ensures Shown(es[..m]) == Stretch(Shown(log), start, m)
  {
    SliceOfSlice(log, start, es, m);
    ShownStretch(log, start, es[..m]);
  }

  lemma PromiseFromHanded(shown: seq<ClientEvent>, finals: iset<nat>, last: Option<nat>,
                          start: Client, cl: Client, es: seq<AgentEvent>, m: nat)
    requires start.accepted == last && Handed(start, cl, es, m)
    requires es != [] ==> last.GetOr(0) + |es| <= |shown|
    requires Rising(es, last.GetOr(0))
    requires Shown(es[..m]) == Stretch(shown, last.GetOr(0), m)
    requires SameEnds(es, finals, last.GetOr(0), m)
    ensures BodyPromise(shown, finals, last, start.handed, cl, m)
  {
  }

  /** Reading a cut of what was printed is filtering the first few of the printed items. */
  lemma CutIsFiltered(c: Codec, cb: Callback, cl: Client, items: seq<Item>, text: string, eof: bool) returns (n: nat)
    requires Faithful(c) && Printable(items) && text <= Render(c, items) && cl.frame == EMPTY_FRAME
    ensures n <= |items|
    ensures SameProgress(RunLines(c, cb, cl, TakeLines(text, eof).lines), SinkAll(cb, cl, Outcomes(items[..n])))
  {
    ReadingIsParsingThenFiltering(c, cb, cl, TakeLines(text, eof).lines);
    n := CutParsesToPrefix(c, items, text, eof);
  }

  /** A cut of what one session sent, read from its start. */
  lemma CutHandsOver(c: Codec, cb: Callback, log: seq<AgentEvent>, last: Option<nat>, before: seq<ClientEvent>,
                     items: seq<Item>, short: seq<AgentEvent>, text: string, eof: bool) returns (m: nat)
    requires Faithful(c) && Printable(items) && short <= log && text <= Render(c, items)
    requires (forall i | 0 <= i < |log| :: log[i].sequence == i + 1) && Follows(short, last.GetOr(0), Events(items))
    ensures BodyPromise(Shown(log), Finals(Shown(log)), last, before,
                        RunLines(c, cb, Client(before, last, EMPTY_FRAME, Running), TakeLines(text, eof).lines), m)
  {
    var cl := Client(before, last, EMPTY_FRAME, Running);
    var n := CutIsFiltered(c, cb, cl, items, text, eof);
    m := PrefixHandsOver(cb, log, last, cl, items, short, n);
  }

  lemma PrefixHandsOver(cb: Callback, log: seq<AgentEvent>, last: Option<nat>, cl: Client,
                        items: seq<Item>, short: seq<AgentEvent>, n: nat) returns (m: nat)
    requires n <= |items| && short <= log && Follows(short, last.GetOr(0), Events(items))
    requires forall i | 0 <= i < |log| :: log[i].sequence == i + 1
    requires cl.accepted == last && cl.status == Running
    ensures BodyPromise(Shown(log), Finals(Shown(log)), last, cl.handed, SinkAll(cb, cl, Outcomes(items[..n])), m)
  {
    EventsOfPrefix(items, n);
    var es := Events(items[..n]);
    FollowsInLog(short, log, last.GetOr(0), Events(items), es);
    m := FilterHandsOver(cb, cl, items[..n]);
    HandedIsPromise(log, last, cl, SinkAll(cb, cl, Outcomes(items[..n])), es, m);
  }

  /** Any cut of any response, in any chunks: the client is handed the next stretch of the log. */
  lemma BodyHandsOver(c: Codec, cb: Callback, log: seq<AgentEvent>, last: Option<nat>,
                      before: seq<ClientEvent>, chunks: seq<string>, ending: Ending) returns (m: nat)
    requires Faithful(c) && NumberedLog(log) && ServedBy(c, log, last, Concat(chunks))
    ensures BodyPromise(Shown(log), Finals(Shown(log)), last, before, ReadBody(c, cb, last, before, chunks, ending), m)
  {
    var text := Concat(chunks);
    var s, steps, t :| SentBy(c, log, last, text, s, steps, t);
    SessionWritesTheLog(c, s, steps, t);
    InitialInv(s);
    RunKeepsInv(c, s, steps, t);
    SentIsPrintable(log, t);
    m := CutHandsOver(c, cb, log, last, before, t.session.out, t.log, text, ending == EndOfStream);
  }

  lemma FollowsInLog(short: seq<AgentEvent>, log: seq<AgentEvent>, start: nat, all: seq<AgentEvent>,
                     es: seq<AgentEvent>)
    requires (forall i | 0 <= i < |log| :: log[i].sequence == i + 1)
    requires short <= log && Follows(short, start, all) && es <= all
    ensures Rising(es, start)
    ensures es != [] ==> start + |es| <= |log| && es == log[start..start + |es|]
  {
    forall i | 0 <= i < |es| ensures es[i] == log[start + i] {
      assert es[i] == all[i];
    }
  }

  lemma ShownSlice(log: seq<AgentEvent>, i: nat)
    requires i < |log|
    ensures Shown(log)[i] == Show(log[i])
  {
  }

  lemma SameShown(es: seq<AgentEvent>, i: nat, log: seq<AgentEvent>, j: nat)
    requires i < |es| && j < |log| && es[i] == log[j]
    ensures Shown(es)[i] == Shown(log)[j]
  {
    ShownSlice(es, i);
    ShownSlice(log, j);
  }

  lemma IsStretch(shown: seq<ClientEvent>, start: nat, part: seq<ClientEvent>)
    requires part != [] ==> start + |part| <= |shown|
    requires forall i | 0 <= i < |part| :: part[i] == shown[start + i]
    ensures part == Stretch(shown, start, |part|)
  {
  }

  lemma ShownStretch(log: seq<AgentEvent>, start: nat, es: seq<AgentEvent>)
    requires es != [] ==> start + |es| <= |log| && es == log[start..start + |es|]
    ensures Shown(es) == Stretch(Shown(log), start, |es|)
  {
    forall i | 0 <= i < |es| ensures Shown(es)[i] == Shown(log)[start + i] {
      SameShown(es, i, log, start + i);
    }
    IsStretch(Shown(log), start, Shown(es));
  }

  lemma ShownKind(log: seq<AgentEvent>, i: nat)
    requires i < |log|
    ensures Shown(log)[i].kind == log[i].kind
  {
    ShownSlice(log, i);
  }

  lemma EndsInLog(log: seq<AgentEvent>, start: nat, es: seq<AgentEvent>, i: nat)
    requires 0 < i <= |es| && start + i <= |log| && es[i - 1] == log[start + i - 1]
    ensures Ends(es, i) == EndsAt(Finals(Shown(log)), start, i)
  {
    ShownKind(log, start + i - 1);
    EndsWithKind(Shown(log), start, es, i);
  }

  lemma EndsWithKind(shown: seq<ClientEvent>, start: nat, es: seq<AgentEvent>, i: nat)
    requires 0 < i <= |es| && start + i <= |shown| && es[i - 1].kind == shown[start + i - 1].kind
    ensures Ends(es, i) == EndsAt(Finals(shown), start, i)
  {
    FinalAt(shown, start + i, es[i - 1].kind);
  }

  lemma FinalAt(shown: seq<ClientEvent>, p: nat, kind: string)
    requires 0 < p <= |shown| && shown[p - 1].kind == kind
    ensures p in Finals(shown) <==> kind in TERMINAL_TYPES
  {
  }

  /** The first `m` events end where the log after `start` does. */
  ghost predicate SameEnds(es: seq<AgentEvent>, finals: iset<nat>, start: nat, m: nat) {
    forall i | 0 <= i <= m :: Ends(es, i) == EndsAt(finals, start, i)
  }

  lemma FinalsOfHanded(log: seq<AgentEvent>, start: nat, es: seq<AgentEvent>, m: nat)
    requires m <= |es|
    requires es != [] ==> start + |es| <= |log| && es == log[start..start + |es|]
    ensures SameEnds(es, Finals(Shown(log)), start, m)
  {
    forall i | 0 < i <= m ensures Ends(es, i) == EndsAt(Finals(Shown(log)), start, i) {
      EndsInLog(log, start, es, i);
    }
  }

  lemma EndsLater(finals: iset<nat>, start: nat, m: nat, n: nat)
    requires n > 0
    ensures EndsAt(finals, start + m, n) == EndsAt(finals, start, m + n)
  {
  }

  lemma NoEarlierEnd(finals: iset<nat>, start: nat, later: nat, m: nat, n: nat)
    requires later == start + m
    requires forall i | 0 < i < m :: !EndsAt(finals, start, i)
    requires !EndsAt(finals, start, m)
    requires forall i | 0 < i < n :: !EndsAt(finals, later, i)
    ensures forall i | 0 < i < m + n :: !EndsAt(finals, start, i)
  {
    forall i | 0 < i < m + n ensures !EndsAt(finals, start, i) {
      if i > m {
        EndsLater(finals, start, m, i - m);
      }
    }
  }

  lemma ReachedJoins(finals: iset<nat>, last: Option<nat>, m: nat, n: nat)
    requires !EndsAt(finals, last.GetOr(0), m)
    ensures Reached(Reached(last, m), n) == Reached(last, m + n)
    ensures EndsAt(finals, Reached(last, m).GetOr(0), n) == EndsAt(finals, last.GetOr(0), m + n)
  {
    if n > 0 {
      EndsLater(finals, last.GetOr(0), m, n);
    }
  }

  lemma StretchAppend(shown: seq<ClientEvent>, start: nat, m: nat, n: nat)
    requires m > 0 ==> start + m <= |shown|
    requires n > 0 ==> start + m + n <= |shown|
    ensures Stretch(shown, start, m) + Stretch(shown, start + m, n) == Stretch(shown, start, m + n)
  {
    if m > 0 && n > 0 {
      assert shown[start..start + m] + shown[start + m..start + m + n] == shown[start..start + m + n];
    }
  }

  lemma JoinTails<T>(x: seq<T>, a: seq<T>, b: seq<T>, z: seq<T>)
    requires z == (x + a) + b
    ensures z == x + (a + b)
  {
  }

  lemma StretchesJoin(shown: seq<ClientEvent>, finals: iset<nat>, last: Option<nat>, m: nat, n: nat,
                      x: seq<ClientEvent>, y: seq<ClientEvent>, z: seq<ClientEvent>)
    requires HandedStretch(shown, finals, last, x, y, m) && HandedStretch(shown, finals, Reached(last, m), y, z, n)
    requires !EndsAt(finals, last.GetOr(0), m)
    ensures HandedStretch(shown, finals, last, x, z, m + n)
  {
    var start := last.GetOr(0);
    StretchAppend(shown, start, m, n);
    JoinTails(x, Stretch(shown, start, m), Stretch(shown, start + m, n), z);
    NoEarlierEnd(finals, start, start + m, m, n);
  }

  /** What the whole stream promises about the events it handed over and the way it ended. */
  ghost predicate Promise(shown: seq<ClientEvent>, finals: iset<nat>, last: Option<nat>,
                          before: seq<ClientEvent>, r: Reading, m: nat)
  {
    && HandedStretch(shown, finals, last, before, r.handed, m)
    && match r.outcome
       case TerminalOutcome(id) => EndsAt(finals, last.GetOr(0), m) && id == last.GetOr(0) + m
       case Exhausted(id) => !EndsAt(finals, last.GetOr(0), m) && id == Reached(last, m)
       case _ => true
  }

  lemma PromisesJoin(shown: seq<ClientEvent>, finals: iset<nat>, last: Option<nat>, m: nat, k: nat,
                     before: seq<ClientEvent>, cl: Client, r: Reading)
    requires cl.status == Running
    requires BodyPromise(shown, finals, last, before, cl, m) && Promise(shown, finals, cl.accepted, cl.handed, r, k)
    ensures Promise(shown, finals, last, before, r, m + k)
  {
    StretchesJoin(shown, finals, last, m, k, before, cl.handed, r.handed);
    ReachedJoins(finals, last, m, k);
  }

  lemma NothingHanded(shown: seq<ClientEvent>, finals: iset<nat>, last: Option<nat>, before: seq<ClientEvent>)
    ensures HandedStretch(shown, finals, last, before, before, 0)
  {
    assert Stretch(shown, last.GetOr(0), 0) == [];
    assert before + [] == before;
  }

  /** The server answers each request with a failure or with some cut of some session's stream. */
  ghost predicate HonestServer(c: Codec, log: seq<AgentEvent>, server: Server) {
    forall n, last :: server(n, last).Body? ==> ServedBy(c, log, last, Concat(server(n, last).chunks))
  }

  /** Reading this answer, if it has a body, hands over the next stretch. */
  ghost predicate Keeps(c: Codec, cb: Callback, shown: seq<ClientEvent>, finals: iset<nat>, last: Option<nat>,
                        before: seq<ClientEvent>, answer: Response)
  {
    answer.Body? ==>
      exists m :: BodyPromise(shown, finals, last, before,
                              ReadBody(c, cb, last, before, answer.chunks, answer.ending), m)
  }

  ghost predicate Delivers(c: Codec, cb: Callback, shown: seq<ClientEvent>, finals: iset<nat>, server: Server) {
    forall n, last, before :: Keeps(c, cb, shown, finals, last, before, server(n, last))
  }

  lemma {:induction false} StreamDelivers(c: Codec, cb: Callback, shown: seq<ClientEvent>, finals: iset<nat>,
                                          server: Server, max: nat, n: nat, last: Option<nat>,
                                          before: seq<ClientEvent>) returns (m: nat)
    requires Delivers(c, cb, shown, finals, server) && n <= max
    ensures Promise(shown, finals, last, before, StreamFrom(c, cb, server, max, n, last, before), m)
    decreases max - n
  {
    m := 0;
    var answer := server(n, last);
    if answer.Body? {
      var cl := ReadBody(c, cb, last, before, answer.chunks, answer.ending);
      assert Keeps(c, cb, shown, finals, last, before, answer);
      m :| BodyPromise(shown, finals, last, before, cl, m);
      if cl.status == Running && n < max {
        var k := StreamDelivers(c, cb, shown, finals, server, max, n + 1, cl.accepted, cl.handed);
        BodyGoesOn(c, cb, shown, finals, server, max, n, last, before, answer.chunks, answer.ending, m, k);
        m := m + k;
      } else {
        BodyEnds(c, cb, shown, finals, server, max, n, last, before, answer.chunks, answer.ending, m);
      }
    } else {
      NoBodyGoesOn(c, cb, shown, finals, server, max, n, last, before);
      if n < max && Retriable(answer) {
        m := StreamDelivers(c, cb, shown, finals, server, max, n + 1, last, before);
      }
    }
  }

  lemma HonestDelivers(c: Codec, cb: Callback, log: seq<AgentEvent>, server: Server)
    requires Faithful(c) && NumberedLog(log) && HonestServer(c, log, server)
    ensures Delivers(c, cb, Shown(log), Finals(Shown(log)), server)
  {
    forall n, last, before ensures Keeps(c, cb, Shown(log), Finals(Shown(log)), last, before, server(n, last)) {
      var answer := server(n, last);
      if answer.Body? {
        var m := BodyHandsOver(c, cb, log, last, before, answer.chunks, answer.ending);
      }
    }
  }

  /** A body after which the client reconnects. */
  lemma BodyGoesOn(c: Codec, cb: Callback, shown: seq<ClientEvent>, finals: iset<nat>, server: Server, max: nat, n: nat,
                   last: Option<nat>, before: seq<ClientEvent>, chunks: seq<string>, ending: Ending, m: nat, k: nat)
    requires n < max && server(n, last) == Body(chunks, ending)
    requires var cl := ReadBody(c, cb, last, before, chunks, ending);
             && BodyPromise(shown, finals, last, before, cl, m) && cl.status == Running
             && Promise(shown, finals, cl.accepted, cl.handed,
                        StreamFrom(c, cb, server, max, n + 1, cl.accepted, cl.handed), k)
    ensures Promise(shown, finals, last, before, StreamFrom(c, cb, server, max, n, last, before), m + k)
  {
    var cl := ReadBody(c, cb, last, before, chunks, ending);
    var later := StreamFrom(c, cb, server, max, n + 1, cl.accepted, cl.handed);
    PromisesJoin(shown, finals, last, m, k, before, cl, later);
    assert Retry(c, cb, server, max, n, cl.accepted, cl.handed) == later;
    assert StreamFrom(c, cb, server, max, n, last, before) == later;
  }

  /** No body: the stream ends, or the next request gets the same id. */
  lemma NoBodyGoesOn(c: Codec, cb: Callback, shown: seq<ClientEvent>, finals: iset<nat>, server: Server, max: nat,
                     n: nat, last: Option<nat>, before: seq<ClientEvent>)
    requires n <= max && !server(n, last).Body?
    ensures var r := StreamFrom(c, cb, server, max, n, last, before);
            if n < max && Retriable(server(n, last)) then r == StreamFrom(c, cb, server, max, n + 1, last, before)
            else Promise(shown, finals, last, before, r, 0)
  {
    NothingHanded(shown, finals, last, before);
    if n < max && Retriable(server(n, last)) {
      assert StreamFrom(c, cb, server, max, n, last, before) == Retry(c, cb, server, max, n, last, before);
    }
  }

  /** A body that ends the stream: it stopped the reader, or no reconnect is left. */
  lemma BodyEnds(c: Codec, cb: Callback, shown: seq<ClientEvent>, finals: iset<nat>, server: Server, max: nat, n: nat,
                 last: Option<nat>, before: seq<ClientEvent>, chunks: seq<string>, ending: Ending, m: nat)
    requires n <= max && server(n, last) == Body(chunks, ending)
    requires BodyPromise(shown, finals, last, before, ReadBody(c, cb, last, before, chunks, ending), m)
    requires ReadBody(c, cb, last, before, chunks, ending).status == Running ==> n == max
    ensures Promise(shown, finals, last, before, StreamFrom(c, cb, server, max, n, last, before), m)
  {
    var cl := ReadBody(c, cb, last, before, chunks, ending);
    var r := StreamFrom(c, cb, server, max, n, last, before);
    if cl.status == Terminal {
      assert r == Reading(TerminalOutcome(cl.accepted.value), cl.handed);
    } else if cl.status == Running {
      assert Retry(c, cb, server, max, n, cl.accepted, cl.handed) == Reading(Exhausted(cl.accepted), cl.handed);
      assert r == Retry(c, cb, server, max, n, cl.accepted, cl.handed);
    } else {
      assert !r.outcome.TerminalOutcome? && !r.outcome.Exhausted?;
    }
  }

  predicate Retriable(r: Response) {
    r == NetworkError || (r.HttpError? && r.code >= 500)
  }

  /**
   Exactly once: whatever the interleaving of every session with the emitter, the cuts, the chunks
   and the reconnects, onEvent is handed a stretch of the log that starts right after the initial
   id, each entry once and in order; a terminal outcome means it ends at its first terminal event.
   */
  lemma ExactlyOnce(c: Codec, cb: Callback, log: seq<AgentEvent>, server: Server, last: Option<nat>, attempts: Attempts)
    requires Faithful(c) && NumberedLog(log) && HonestServer(c, log, server)
    ensures exists m :: Promise(Shown(log), Finals(Shown(log)), last, [],
                                StreamFrom(c, cb, server, NormalizeReconnectAttempts(attempts), 0, last, []), m)
  {
    HonestDelivers(c, cb, log, server);
    var m := StreamDelivers(c, cb, Shown(log), Finals(Shown(log)), server,
                            NormalizeReconnectAttempts(attempts), 0, last, []);
    assert Promise(Shown(log), Finals(Shown(log)), last, [],
                   StreamFrom(c, cb, server, NormalizeReconnectAttempts(attempts), 0, last, []), m);
  }

  // ----- at most once, whatever the server does -----

  ghost predicate OnceAbove(last: Option<nat>, before: seq<ClientEvent>, after: seq<ClientEvent>) {
    && before <= after
    && (forall i, j | |before| <= i < j < |after| :: after[i].sequence < after[j].sequence)
    && (last.Some? ==> forall i | |before| <= i < |after| :: last.value < after[i].sequence)
  }

  /** The events after `base` rise above `last`; the accepted sequence is the latest of them. */
  ghost predicate UpTo(last: Option<nat>, base: seq<ClientEvent>, cl: Client) {
    && OnceAbove(last, base, cl.handed)
    && (cl.status == Running ==>
          cl.accepted == if |cl.handed| == |base| then last else Some(cl.handed[|cl.handed| - 1].sequence))
  }

  lemma SinkHandsOnce(cb: Callback, last: Option<nat>, base: seq<ClientEvent>, cl: Client, p: Parsed)
    requires UpTo(last, base, cl)
    ensures UpTo(last, base, Sink(cb, cl, p))
  {
  }

  lemma LineHandsOnce(c: Codec, cb: Callback, last: Option<nat>, base: seq<ClientEvent>, cl: Client, line: string)
    requires UpTo(last, base, cl)
    ensures UpTo(last, base, StepLine(c, cb, cl, line))
  {
    SinkHandsOnce(cb, last, base, cl.(frame := EMPTY_FRAME), ParseAgentEvent(c, cl.frame));
  }

  lemma {:induction false} LinesHandOnce(c: Codec, cb: Callback, last: Option<nat>, base: seq<ClientEvent>,
                                         cl: Client, lines: seq<string>)
    requires UpTo(last, base, cl)
    ensures UpTo(last, base, RunLines(c, cb, cl, lines))
    decreases |lines|
  {
    if lines != [] {
      LineHandsOnce(c, cb, last, base, cl, lines[0]);
      LinesHandOnce(c, cb, last, base, StepLine(c, cb, cl, lines[0]), lines[1..]);
    }
  }

  lemma BodyHandsOnce(c: Codec, cb: Callback, last: Option<nat>, before: seq<ClientEvent>,
                      chunks: seq<string>, ending: Ending)
    ensures UpTo(last, before, ReadBody(c, cb, last, before, chunks, ending))
  {
    LinesHandOnce(c, cb, last, before, Client(before, last, EMPTY_FRAME, Running),
                  TakeLines(Concat(chunks), ending == EndOfStream).lines);
  }

  lemma OnceThenOnce(last: Option<nat>, before: seq<ClientEvent>, cl: Client, after: seq<ClientEvent>)
    requires UpTo(last, before, cl) && cl.status == Running && OnceAbove(cl.accepted, cl.handed, after)
    ensures OnceAbove(last, before, after)
  {
  }

  /** Even a server that repeats, reorders or invents events has none handed over twice. */
  lemma {:induction false} AtMostOnce(c: Codec, cb: Callback, server: Server, max: nat, n: nat,
                                      last: Option<nat>, before: seq<ClientEvent>)
    requires n <= max
    ensures OnceAbove(last, before, StreamFrom(c, cb, server, max, n, last, before).handed)
    decreases max - n
  {
    var r := StreamFrom(c, cb, server, max, n, last, before);
    match server(n, last)
    case Body(chunks, ending) =>
      BodyHandsOnce(c, cb, last, before, chunks, ending);
      var cl := ReadBody(c, cb, last, before, chunks, ending);
      if cl.status == Running && n < max {
        AtMostOnce(c, cb, server, max, n + 1, cl.accepted, cl.handed);
        assert r == Retry(c, cb, server, max, n, cl.accepted, cl.handed);
        OnceThenOnce(last, before, cl, r.handed);
      } else {
        assert r.handed == cl.handed;
      }
    case _ =>
      if n < max {
        AtMostOnce(c, cb, server, max, n + 1, last, before);
      }
  }
}
