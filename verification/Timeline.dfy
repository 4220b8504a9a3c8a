/**
 The chat timeline: keyset pages from the server, merged by the client while newer runs appear and
 events arrive in any order.
 */
module Timeline {
  import opened Results
  import opened Sorting

  // ----- runs and pages -----

  datatype Turn = Turn(createdAt: int, id: nat, content: string)

  datatype Cursor = Cursor(createdAt: int, id: nat)

  predicate OlderThan(t: Turn, c: Cursor) {
    t.createdAt < c.createdAt || (t.createdAt == c.createdAt && t.id < c.id)
  }

  function CursorOf(t: Turn): Cursor {
    Cursor(t.createdAt, t.id)
  }

  predicate Within(t: Turn, before: Option<Cursor>) {
    before.Some? ==> OlderThan(t, before.value)
  }

  /** A chat's runs from oldest to newest, each with its own id. */
  ghost predicate Chronological(ts: seq<Turn>) {
    && (forall i, j | 0 <= i < j < |ts| :: OlderThan(ts[i], CursorOf(ts[j])))
    && (forall i, j | 0 <= i < j < |ts| :: ts[i].id != ts[j].id)
  }

  datatype Page = Page(turns: seq<Turn>, nextBefore: Option<Cursor>)

  /** How many runs lie before the cursor. */
  function CountWithin(log: seq<Turn>, before: Option<Cursor>): (n: nat)
    ensures n <= |log|
  {
    if log == [] then 0
    else if Within(log[|log| - 1], before) then |log|
    else CountWithin(log[..|log| - 1], before)
  }

  /** The query: at most `count` runs before the cursor, the newest first. */
  method NewestWithin(log: seq<Turn>, before: Option<Cursor>, count: nat) returns (runs: seq<Turn>)
    requires Chronological(log)
    ensures var n := CountWithin(log, before);
            && |runs| == (if n < count then n else count)
            && forall k | 0 <= k < |runs| :: runs[k] == log[n - 1 - k]
  {
    ghost var n := CountWithin(log, before);
    CountedAreWithin(log, before);
    runs := [];
    var i := |log|;
    while i > 0 && |runs| < count
      invariant 0 <= i <= |log| && |runs| <= count
      invariant |runs| == if i < n then n - i else 0
      invariant forall k | 0 <= k < |runs| :: runs[k] == log[n - 1 - k]
      decreases i
    {
      i := i - 1;
      if Within(log[i], before) {
        runs := runs + [log[i]];
      }
    }
  }

  /** The runs of a page, turned around. */
  method OldestFirst(runs: seq<Turn>, ghost log: seq<Turn>, ghost n: nat) returns (turns: seq<Turn>)
    requires |runs| <= n <= |log| && forall k | 0 <= k < |runs| :: runs[k] == log[n - 1 - k]
    ensures turns == log[n - |runs|..n]
  {
    turns := [];
    for k := 0 to |runs|
      invariant turns == log[n - k..n]
    {
      SliceGrows(log, n, k);
      turns := [runs[k]] + turns;
    }
  }

  /**
   One page: the `limit` newest runs before the cursor, from oldest to newest; there is a next cursor
   exactly when there are older runs, and it is the oldest run shown. The query reads the collection
   from its newest run on.
   */
  method TimelinePage(log: seq<Turn>, before: Option<Cursor>, limit: nat) returns (page: Page)
    requires Chronological(log) && limit >= 1
    ensures var n := CountWithin(log, before);
            && page.turns == log[if n > limit then n - limit else 0..n]
            && (page.nextBefore.Some? <==> n > limit)
            && (n > limit ==> page.nextBefore.value == CursorOf(log[n - limit]))
  {
    ghost var n := CountWithin(log, before);
    var runs := NewestWithin(log, before, limit + 1);
    var hasMore := |runs| > limit;
    var selected := if hasMore then runs[..limit] else runs;
    var turns := OldestFirst(selected, log, n);
    page := Page(turns, if hasMore then Some(CursorOf(selected[|selected| - 1])) else None);
  }

  lemma SliceGrows<T>(log: seq<T>, n: nat, k: nat)
    requires k < n <= |log|
    ensures [log[n - 1 - k]] + log[n - k..n] == log[n - (k + 1)..n]
  {
  }

  lemma {:induction false} CountedAreWithin(log: seq<Turn>, before: Option<Cursor>)
    requires Chronological(log)
    ensures forall i | 0 <= i < |log| :: Within(log[i], before) <==> i < CountWithin(log, before)
    decreases |log|
  {
    if log != [] {
      var n := |log| - 1;
      if !Within(log[n], before) {
        CountedAreWithin(log[..n], before);
      }
    }
  }

  /** Behind the cursor of the run at `k` lie exactly the runs before it, however many came later. */
  lemma CountBehindCursor(log: seq<Turn>, k: nat)
    requires Chronological(log) && k < |log|
    ensures CountWithin(log, Some(CursorOf(log[k]))) == k
  {
    CountedAreWithin(log, Some(CursorOf(log[k])));
  }

  // ----- the client's state -----

  predicate Earlier(a: Turn, b: Turn) {
    a.createdAt < b.createdAt
  }

  /** Map.set: a known id keeps its place and takes the new turn. */
  function Put(ts: seq<Turn>, t: Turn): seq<Turn> {
    if ts == [] then [t] else if ts[0].id == t.id then [t] + ts[1..] else [ts[0]] + Put(ts[1..], t)
  }

  function PutAll(ts: seq<Turn>, more: seq<Turn>): seq<Turn> {
    if more == [] then ts else Put(PutAll(ts, more[..|more| - 1]), more[|more| - 1])
  }

  function MergeOlder(state: seq<Turn>, response: seq<Turn>): seq<Turn> {
    Sort(Earlier, PutAll([], response + state))
  }

  method MergeOlderTimelinePage(state: seq<Turn>, response: seq<Turn>) returns (turns: seq<Turn>)
    ensures turns == MergeOlder(state, response)
  {
    var all := response + state;
    var turnsByRunId: seq<Turn> := [];
    for i := 0 to |all|
      invariant turnsByRunId == PutAll([], all[..i])
    {
      assert all[..i + 1][..i] == all[..i];
      turnsByRunId := Put(turnsByRunId, all[i]);
    }
    assert all[..|all|] == all;
    turns := Sort(Earlier, turnsByRunId);
  }

  function InsertRun(state: seq<Turn>, t: Turn): seq<Turn> {
    if exists i | 0 <= i < |state| :: state[i].id == t.id then state else Sort(Earlier, state + [t])
  }

  function InsertRuns(state: seq<Turn>, ts: seq<Turn>): seq<Turn> {
    if ts == [] then state else InsertRun(InsertRuns(state, ts[..|ts| - 1]), ts[|ts| - 1])
  }

  lemma {:induction false} PutNew(ts: seq<Turn>, t: Turn)
    requires forall i | 0 <= i < |ts| :: ts[i].id != t.id
    ensures Put(ts, t) == ts + [t]
    decreases |ts|
  {
    if ts != [] {
      PutNew(ts[1..], t);
    }
  }

  lemma {:induction false} PutAllNew(ts: seq<Turn>)
    requires Chronological(ts)
    ensures PutAll([], ts) == ts
    decreases |ts|
  {
    if ts != [] {
      PutAllNew(ts[..|ts| - 1]);
      PutNew(ts[..|ts| - 1], ts[|ts| - 1]);
    }
  }

  /** An older page goes in front. */
  lemma OlderGoesInFront(state: seq<Turn>, response: seq<Turn>)
    requires Chronological(response + state)
    ensures MergeOlder(state, response) == response + state
  {
    PutAllNew(response + state);
    OrderedStays(Earlier, response + state);
  }

  lemma LastOfBoth<T>(xs: seq<T>, ys: seq<T>)
    requires ys != []
    ensures xs + ys == (xs + ys[..|ys| - 1]) + [ys[|ys| - 1]]
  {
  }

  lemma NewestIsInserted(state: seq<Turn>, last: Turn)
    requires Chronological(state + [last])
    ensures Chronological(state) && InsertRun(state, last) == state + [last]
  {
    var all := state + [last];
    assert all[|state|] == last && forall i | 0 <= i < |state| :: all[i] == state[i];
    OrderedStays(Earlier, all);
  }

  /** New runs go to the end. */
  lemma {:induction false} NewerGoToTheEnd(state: seq<Turn>, ts: seq<Turn>)
    requires Chronological(state + ts)
    ensures InsertRuns(state, ts) == state + ts
    decreases |ts|
  {
    if ts == [] {
      assert state + ts == state;
    } else {
      var most, last := ts[..|ts| - 1], ts[|ts| - 1];
      LastOfBoth(state, ts);
      NewestIsInserted(state + most, last);
      NewerGoToTheEnd(state, most);
    }
  }

  // ----- following the cursors -----

  /** The chat at the i-th request: `arrivals(j)` came between requests j and j + 1. */
  function LogAt(log: seq<Turn>, arrivals: nat -> seq<Turn>, i: nat): seq<Turn> {
    if i == 0 then log else LogAt(log, arrivals, i - 1) + arrivals(i - 1)
  }

  /** The runs of all pages, the last page in front. */
  function Flatten(pages: seq<Page>): seq<Turn> {
    if pages == [] then [] else pages[|pages| - 1].turns + Flatten(pages[..|pages| - 1])
  }

  lemma TailIsChronological(ts: seq<Turn>, k: nat)
    requires Chronological(ts) && k <= |ts|
    ensures Chronological(ts[k..])
  {
  }

  /** Putting the part before `k` back in front of the tail from `k` on, and more at the end. */
  lemma TailsJoin<T>(log: seq<T>, arrived: seq<T>, j: nat, k: nat)
    requires j <= k <= |log|
    ensures log[k..] + arrived == (log + arrived)[k..]
    ensures log[j..k] + (log + arrived)[k..] == (log + arrived)[j..]
  {
  }

  /** Arrivals at the end and an older page in front: the state stays a tail of the chat. */
  lemma StateStaysTail(log: seq<Turn>, next: seq<Turn>, arrived: seq<Turn>, state: seq<Turn>, older: seq<Turn>,
                       j: nat, k: nat)
    requires next == log + arrived && Chronological(next) && j <= k <= |log|
    requires state == log[k..] && older == log[j..k]
    ensures MergeOlder(InsertRuns(state, arrived), older) == next[j..]
  {
    TailsJoin(log, arrived, j, k);
    TailIsChronological(next, k);
    NewerGoToTheEnd(state, arrived);
    TailIsChronological(next, j);
    OlderGoesInFront(next[k..], older);
  }

  /** Where the page before the run at `k` starts. */
  function PageStart(k: nat, limit: nat): nat {
    if k > limit then k - limit else 0
  }

  lemma PrefixesAgree<T>(log: seq<T>, current: seq<T>, arrived: seq<T>, j: nat, k: nat)
    requires log <= current && j <= k < |log|
    ensures (current + arrived)[j..k] == current[j..k] == log[j..k]
    ensures (current + arrived)[k] == log[k] && (current + arrived)[j] == log[j]
  {
  }

  /** The page behind the run at `k` of `log`, merged after what arrived meanwhile. */
  method LoadOlder(ghost log: seq<Turn>, current: seq<Turn>, arrived: seq<Turn>, state: seq<Turn>,
                   before: Option<Cursor>, limit: nat, ghost k: nat)
    returns (turns: seq<Turn>, page: Page)
    requires limit >= 1 && Chronological(current + arrived) && log <= current && 0 < k < |log|
    requires before == Some(CursorOf(log[k])) && state == current[k..]
    ensures page.turns == log[PageStart(k, limit)..k]
    ensures page.nextBefore == if PageStart(k, limit) > 0 then Some(CursorOf(log[PageStart(k, limit)])) else None
    ensures turns == (current + arrived)[PageStart(k, limit)..]
  {
    ghost var next := current + arrived;
    PrefixesAgree(log, current, arrived, PageStart(k, limit), k);
    CountBehindCursor(next, k);
    page := TimelinePage(current + arrived, before, limit);
    ghost var j := PageStart(k, limit);
    StateStaysTail(current, next, arrived, state, page.turns, j, k);
    turns := InsertRuns(state, arrived);
    turns := MergeOlderTimelinePage(turns, page.turns);
  }

  lemma FlattenOneMore(pages: seq<Page>, page: Page)
    ensures Flatten(pages + [page]) == page.turns + Flatten(pages)
  {
    assert (pages + [page])[..|pages|] == pages;
  }

  /** What the client holds after some pages: the chat from the oldest run shown on, each run once. */
  ghost predicate Shown(log: seq<Turn>, current: seq<Turn>, turns: seq<Turn>, pages: seq<Page>,
                        next: Option<Cursor>, k: nat) {
    && pages != [] && log <= current && k <= |log| && (k > 0 ==> k < |log|)
    && turns == current[k..] && Flatten(pages) == log[k..]
    && next == if k > 0 then Some(CursorOf(log[k])) else None
  }

  method FirstPage(log: seq<Turn>, limit: nat) returns (page: Page)
    requires limit >= 1 && Chronological(log)
    ensures Shown(log, log, page.turns, [page], page.nextBefore, PageStart(|log|, limit))
  {
    page := TimelinePage(log, None, limit);
    WithoutCursor(log);
    FlattenOneMore([], page);
    assert [] + [page] == [page];
    assert page.turns + [] == page.turns;
  }

  method NextPage(ghost log: seq<Turn>, current: seq<Turn>, arrived: seq<Turn>, state: seq<Turn>,
                  pagesBefore: seq<Page>,
                  before: Option<Cursor>, limit: nat, ghost k: nat)
    returns (turns: seq<Turn>, pages: seq<Page>, nextBefore: Option<Cursor>)
    requires limit >= 1 && Chronological(current + arrived)
    requires before.Some? && Shown(log, current, state, pagesBefore, before, k)
    ensures |pages| == |pagesBefore| + 1 && Shown(log, current + arrived, turns, pages, nextBefore, PageStart(k, limit))
  {
    var page;
    turns, page := LoadOlder(log, current, arrived, state, before, limit, k);
    ghost var j := PageStart(k, limit);
    assert log[j..k] + log[k..] == log[j..];
    FlattenOneMore(pagesBefore, page);
    pages, nextBefore := pagesBefore + [page], page.nextBefore;
  }

  /**
   Pagination is complete: following the cursors until there is none visits each run of the first
   request's chat exactly once, and leaves the client with all of them and all later arrivals, from
   oldest to newest and without duplicates.
   */
  method LoadTimeline(log: seq<Turn>, arrivals: nat -> seq<Turn>, limit: nat)
    returns (turns: seq<Turn>, pages: seq<Page>)
    requires limit >= 1 && forall i :: Chronological(LogAt(log, arrivals, i))
    ensures pages != [] && Flatten(pages) == log
    ensures turns == LogAt(log, arrivals, |pages| - 1)
  {
    assert Chronological(LogAt(log, arrivals, 0));
    var page := FirstPage(log, limit);
    ghost var k := PageStart(|log|, limit);
    turns, pages := page.turns, [page];
    var current, before := log, page.nextBefore;
    while before.Some?
      invariant pages != [] && current == LogAt(log, arrivals, |pages| - 1)
      invariant Shown(log, current, turns, pages, before, k)
      decreases k
    {
      var arrived := arrivals(|pages| - 1);
      assert current + arrived == LogAt(log, arrivals, |pages|);
      turns, pages, before := NextPage(log, current, arrived, turns, pages, before, limit, k);
      k := PageStart(k, limit);
      current := current + arrived;
    }
    assert current[0..] == current && log[0..] == log;
  }

  lemma WithoutCursor(log: seq<Turn>)
    ensures CountWithin(log, None) == |log|
  {
  }

  // ----- events of a turn -----

  datatype TurnEvent = TurnEvent(sequence: int, text: string)

  predicate Before(a: TurnEvent, b: TurnEvent) {
    a.sequence < b.sequence
  }

  predicate HasSequence(events: seq<TurnEvent>, n: int) {
    exists i | 0 <= i < |events| :: events[i].sequence == n
  }

  function AppendEvent(events: seq<TurnEvent>, e: TurnEvent): seq<TurnEvent> {
    if HasSequence(events, e.sequence) then events else Sort(Before, events + [e])
  }

  ghost predicate Rising(events: seq<TurnEvent>) {
    forall i, j | 0 <= i < j < |events| :: events[i].sequence < events[j].sequence
  }

  datatype TurnState = TurnState(runId: string, events: seq<TurnEvent>)

  method AppendTimelineEvent(turns: seq<TurnState>, runId: string, event: TurnEvent) returns (r: seq<TurnState>)
    ensures |r| == |turns|
    ensures forall i | 0 <= i < |turns| ::
              r[i] == if turns[i].runId == runId && !(exists j | 0 <= j < i :: turns[j].runId == runId)
                      then turns[i].(events := AppendEvent(turns[i].events, event)) else turns[i]
  {
    var turnIndex := 0;
    while turnIndex < |turns| && turns[turnIndex].runId != runId
      invariant turnIndex <= |turns|
      invariant forall j | 0 <= j < turnIndex :: turns[j].runId != runId
    {
      turnIndex := turnIndex + 1;
    }
    if turnIndex == |turns| {
      return turns;
    }
    var turn := turns[turnIndex];
    if HasSequence(turn.events, event.sequence) {
      return turns;
    }
    r := turns[turnIndex := turn.(events := Sort(Before, turn.events + [event]))];
  }

  lemma SortAfterAppend(events: seq<TurnEvent>, e: TurnEvent)
    requires Rising(events)
    ensures Sort(Before, events + [e]) == Insert(Before, events, e)
  {
    assert (events + [e])[..|events|] == events;
    OrderedStays(Before, events);
  }

  lemma {:induction false} InsertRises(events: seq<TurnEvent>, e: TurnEvent)
    requires Rising(events) && !HasSequence(events, e.sequence)
    ensures Rising(Insert(Before, events, e))
    ensures forall x :: x in Insert(Before, events, e) <==> x in events || x == e
    decreases |events|
  {
    if events != [] && e.sequence >= events[0].sequence {
      assert events[0].sequence != e.sequence;
      forall i | 0 <= i < |events[1..]| ensures events[1..][i].sequence != e.sequence {
        assert events[i + 1].sequence != e.sequence;
      }
      InsertRises(events[1..], e);
      var rest := Insert(Before, events[1..], e);
      forall j | 0 <= j < |rest| ensures events[0].sequence < rest[j].sequence {
        assert rest[j] in rest;
      }
    }
  }

  /** Appending keeps the events strictly rising, and adds just this one, unless its number is known. */
  lemma AppendKeepsRising(events: seq<TurnEvent>, e: TurnEvent)
    requires Rising(events)
    ensures var r := AppendEvent(events, e);
            && Rising(r) && HasSequence(r, e.sequence)
            && forall x :: x in r <==> x in events || (x == e && !HasSequence(events, e.sequence))
  {
    if !HasSequence(events, e.sequence) {
      SortAfterAppend(events, e);
      InsertRises(events, e);
      var r := Insert(Before, events, e);
      assert e in r;
      var i :| 0 <= i < |r| && r[i] == e;
    }
  }

  /** Two rising sequences of the same events are equal. */
  lemma {:induction false} RisingIsUnique(a: seq<TurnEvent>, b: seq<TurnEvent>)
    requires Rising(a) && Rising(b) && forall x :: x in a <==> x in b
    ensures a == b
    decreases |a|
  {
    if b != [] {
      assert b[0] in b;
    }
    if a == [] {
    } else {
      assert a[0] in b;
      assert b != [] && b[0] in a;
      assert a[0] == b[0] by {
        var i :| 0 <= i < |b| && b[i] == a[0];
        var j :| 0 <= j < |a| && a[j] == b[0];
      }
      forall x ensures x in a[1..] <==> x in b[1..] {
        TailHasOthers(a, x);
        TailHasOthers(b, x);
      }
      RisingIsUnique(a[1..], b[1..]);
    }
  }

  lemma TailHasOthers(a: seq<TurnEvent>, x: TurnEvent)
    requires Rising(a) && a != []
    ensures x in a[1..] <==> x in a && x != a[0]
  {
    if x in a[1..] {
      var i :| 0 <= i < |a[1..]| && a[1..][i] == x;
      assert a[i + 1] == x;
    }
  }

  /** Events may arrive in any order: the timeline comes out the same. */
  lemma AppendsCommute(events: seq<TurnEvent>, d: TurnEvent, e: TurnEvent)
    requires Rising(events) && d.sequence != e.sequence
    ensures AppendEvent(AppendEvent(events, d), e) == AppendEvent(AppendEvent(events, e), d)
  {
    AppendKeepsRising(events, d);
    AppendKeepsRising(events, e);
    var x, y := AppendEvent(events, d), AppendEvent(events, e);
    SequencesAfter(events, d, e.sequence);
    SequencesAfter(events, e, d.sequence);
    AppendKeepsRising(x, e);
    AppendKeepsRising(y, d);
    RisingIsUnique(AppendEvent(x, e), AppendEvent(y, d));
  }

  lemma SequencesAfter(events: seq<TurnEvent>, e: TurnEvent, n: int)
    requires Rising(events) && n != e.sequence
    ensures HasSequence(AppendEvent(events, e), n) <==> HasSequence(events, n)
  {
    AppendKeepsRising(events, e);
    var r := AppendEvent(events, e);
    if HasSequence(r, n) {
      var i :| 0 <= i < |r| && r[i].sequence == n;
      assert r[i] in events;
    }
    if HasSequence(events, n) {
      var i :| 0 <= i < |events| && events[i].sequence == n;
      assert events[i] in r;
    }
  }
}
