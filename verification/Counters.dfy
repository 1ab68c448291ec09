/** The journal counters between polls (app/inferenceinquire/derive.py, counter_deltas; monitor.py,
    prev_counters), which feed the summed columns. */
module Counters {

  import opened Basics
  import opened Aggregates
  import Journal

  type Entry = Journal.Entry

  /** The agent's counters, and the stored columns they feed. */
  const JOURNAL: seq<(string, string)> :=
    [("auth_fail", "auth_fail"), ("cache_evict", "cache_evict"), ("cache_skip", "cache_skip"), ("cancel", "cancels")]

  type Counts = map<string, nat>

  function ValueOf(counters: Counts, key: string): Option<nat> {
    if key in counters then Some(counters[key]) else None
  }

  /** What a counter's column gets at a poll. */
  function Delta(counters: Counts, prev: Option<Counts>, key: string): Option<int> {
    if key !in counters then None
    else if prev.None? then Some(0)
    else if key in prev.value && counters[key] >= prev.value[key] then Some(counters[key] - prev.value[key])
    else Some(counters[key])
  }

  class Monitor {
    var prev: Option<Counts>

    constructor ()
      ensures prev == None
    {
      prev := None;
    }

    /** One poll; an agent without a journal sends no counters at all, and changes nothing. */
    method ReadJournal(counters: Counts) returns (point: map<string, Option<int>>)
      modifies this
      ensures prev == if counters == map[] then old(prev) else Some(counters)
      ensures forall i :: 0 <= i < |JOURNAL| ==>
        JOURNAL[i].1 in point && point[JOURNAL[i].1] == Delta(counters, old(prev), JOURNAL[i].0)
    {
      point := map[];
      for i := 0 to |JOURNAL|
        invariant forall j :: 0 <= j < i ==>
          JOURNAL[j].1 in point && point[JOURNAL[j].1] == Delta(counters, prev, JOURNAL[j].0)
      {
        var (key, col) := JOURNAL[i];
        var cur := ValueOf(counters, key);
        var was := if prev.Some? then ValueOf(prev.value, key) else None;
        if cur.None? || prev.None? {
          point := point[col := if cur.None? then None else Some(0)];
        } else {
          point := point[col := Some(if was.Some? && cur.value >= was.value then cur.value - was.value else cur.value)];
        }
      }
      if counters != map[] {
        prev := Some(counters);
      }
    }
  }

  // -------------------------------------------------------------- the column --

  function PrevAfter(polls: seq<Counts>): Option<Counts> {
    if polls == [] then None
    else if polls[|polls| - 1] == map[] then PrevAfter(polls[..|polls| - 1])
    else Some(polls[|polls| - 1])
  }

  /** The column of one counter over a run of polls: see Monitor.ReadJournal. */
  function Deltas(polls: seq<Counts>, key: string): seq<Option<real>> {
    if polls == [] then []
    else
      var front := polls[..|polls| - 1];
      var d := Delta(polls[|polls| - 1], PrevAfter(front), key);
      Deltas(front, key) + [if d.None? then None else Some(d.value as real)]
  }

  function SumOf(polls: seq<Counts>, key: string): real { FoldSeq(Sum, Deltas(polls, key)).Or(0.0) }

  lemma OneMorePoll(polls: seq<Counts>, counters: Counts, key: string)
    ensures SumOf(polls + [counters], key) == SumOf(polls, key) + Delta(counters, PrevAfter(polls), key).Or(0) as real
    ensures PrevAfter(polls + [counters]) == if counters == map[] then PrevAfter(polls) else Some(counters)
  {
    var more := polls + [counters];
    assert more[..|polls|] == polls;
    var column := Deltas(more, key);
    assert column[..|column| - 1] == Deltas(polls, key);
  }

  // --------------------------------------------------------- the agent's lives --

  /** A tail replays this many of the lines written so far. */
  const REPLAY := 40

  function Back(end: nat): nat { if end <= REPLAY then 0 else end - REPLAY }

  predicate IsKey(key: string) { exists i :: 0 <= i < |JOURNAL| && JOURNAL[i].0 == key }

  function CountsOf(c: Journal.Counters): Counts {
    map["auth_fail" := c.authFail, "cache_evict" := c.evict, "cache_skip" := c.skip, "cancel" := c.cancel]
  }

  function ValueIn(c: Journal.Counters, key: string): nat { ValueOf(CountsOf(c), key).Or(0) }

  /** How many signals of a kind were really written from one line of the log to another. */
  function Signals(log: seq<Entry>, a: nat, b: nat, key: string): nat
    requires a <= b <= |log|
  {
    ValueIn(Journal.Tally(log[a..b]), key)
  }

  datatype Step =
    | Write    // the server writes a line
    | Spawn    // the agent starts a tail, its first or another
    | Read     // and reads its next line
    | Restart  // the agent's process is started again
    | Poll     // the dashboard gets the counters
    | Silence  // or an answer without any

  /** The log is written up to `end`; this life of the agent has read up to `reached`, and its tail
      reads `next`. `furthest` is the furthest line whose effect was ever reported, `first` where
      that stood at the first report.

      What went wrong is kept beside: signals read again that an earlier life had reported, signals
      no life read, and what the restarts that did not show as a drop had counted before them;
      `again` and `skipped` since the last report, `replayed`, `missed` and `hidden` before it. */
  datatype World = World(
    end: nat, next: nat, reached: nat, tailing: bool, meter: Journal.Meter, polls: seq<Counts>,
    reborn: bool, reported: nat, first: Option<nat>, furthest: nat,
    again: nat, skipped: nat, replayed: nat, missed: nat, hidden: nat)

  const BEGIN := World(0, 0, 0, false, Journal.FRESH_METER, [], false, 0, None, 0, 0, 0, 0, 0, 0)

  function Max(a: nat, b: nat): nat { if a >= b then a else b }

  predicate Enabled(log: seq<Entry>, w: World, s: Step) {
    match s
    case Write => w.end < |log|
    case Read => w.tailing && w.next < w.end <= |log|
    case _ => true
  }

  /** What a restart hides at a report, if it does: the counter is not below what it was. */
  function HiddenNow(w: World, key: string): nat {
    var prev := PrevAfter(w.polls);
    var was := if prev.Some? then ValueOf(prev.value, key).Or(0) else 0;
    if w.reborn && ValueIn(w.meter.counters, key) >= was then was else 0
  }

  function Skipped(log: seq<Entry>, w: World, from: nat, key: string): nat {
    if w.reached < from <= |log| && w.furthest <= |log|
    then Signals(log, Max(w.furthest, w.reached), Max(w.furthest, from), key)
    else 0
  }

  function Next(log: seq<Entry>, key: string, w: World, s: Step): World
    requires Enabled(log, w, s)
  {
    match s
    case Write => w.(end := w.end + 1)
    case Spawn =>
      var from := Back(w.end);
      w.(tailing := true, next := from, reached := Max(w.reached, from), skipped := w.skipped + Skipped(log, w, from, key))
    case Read =>
      w.(meter := Journal.Metered(w.meter, log[w.next]), next := w.next + 1, reached := Max(w.reached, w.next + 1),
         again := w.again + if w.reached <= w.next < w.furthest then Signals(log, w.next, w.next + 1, key) else 0)
    case Restart =>
      w.(meter := Journal.FRESH_METER, tailing := false, next := 0, reached := 0, reborn := true, reported := 0,
         again := 0, skipped := 0)
    case Poll =>
      var after := w.(polls := w.polls + [CountsOf(w.meter.counters)], reborn := false, again := 0, skipped := 0,
                      reported := ValueIn(w.meter.counters, key));
      if w.first.None? then after.(first := Some(w.reached), furthest := w.reached)
      else
        after.(furthest := Max(w.furthest, w.reached), replayed := w.replayed + w.again, missed := w.missed + w.skipped,
               hidden := w.hidden + HiddenNow(w, key))
    case Silence => w.(polls := w.polls + [map[]])
  }

  function Run(log: seq<Entry>, key: string, steps: seq<Step>): Option<World> {
    if steps == [] then Some(BEGIN)
    else
      var before, s := Run(log, key, steps[..|steps| - 1]), steps[|steps| - 1];
      if before.None? || !Enabled(log, before.value, s) then None else Some(Next(log, key, before.value, s))
  }

  // --------------------------------------------------------------- invariant --

  predicate Placed(log: seq<Entry>, w: World) {
    w.next <= w.reached <= w.end <= |log| && w.furthest <= w.end
  }

  /** The high-water mark stands between the lines a tail may read again and those it has not. */
  predicate Guarded(log: seq<Entry>, w: World)
    requires Placed(log, w)
  {
    && (forall p :: 0 <= p < w.reached && (w.next <= p || Back(w.end) <= p) && Journal.Counted(log[p].line) ==>
          log[p].ts <= w.meter.hwm)
    && (forall p :: w.reached <= p < |log| && Journal.Counted(log[p].line) ==> log[p].ts > w.meter.hwm)
  }

  /** What this life has counted since the last report, against what was written. */
  predicate Balanced(log: seq<Entry>, key: string, w: World)
    requires Placed(log, w)
  {
    var value := ValueIn(w.meter.counters, key);
    && value >= w.reported
    && value - w.reported + w.skipped == w.again + Signals(log, w.furthest, Max(w.furthest, w.reached), key)
  }

  predicate Remembered(key: string, w: World) {
    var prev := PrevAfter(w.polls);
    && (prev.None? <==> w.first.None?)
    && (prev.Some? ==> key in prev.value && (!w.reborn ==> prev.value[key] == w.reported))
    && (w.reborn ==> w.reported == 0)
  }

  predicate Accounted(log: seq<Entry>, key: string, w: World)
    requires Placed(log, w)
  {
    match w.first
    case None => SumOf(w.polls, key) == 0.0 && w.replayed == w.missed == w.hidden == 0
    case Some(first) =>
      && first <= w.furthest
      && SumOf(w.polls, key)
         == (Signals(log, first, w.furthest, key) + w.replayed) as real - (w.missed + w.hidden) as real
  }

  predicate Inv(log: seq<Entry>, key: string, w: World) {
    Placed(log, w) && Guarded(log, w) && Balanced(log, key, w) && Remembered(key, w) && Accounted(log, key, w)
  }

  lemma AddCounts(c: Journal.Counters, line: Journal.Line, key: string)
    ensures ValueIn(Journal.Add(c, line), key) == ValueIn(c, key) + ValueIn(Journal.Add(Journal.ZERO, line), key)
  {
  }

  lemma {:induction false} TallyAppend(a: seq<Entry>, b: seq<Entry>, key: string)
    ensures ValueIn(Journal.Tally(a + b), key) == ValueIn(Journal.Tally(a), key) + ValueIn(Journal.Tally(b), key)
    decreases |b|
  {
    if b == [] {
      ZeroCounts(key);
      assert a + b == a;
    } else {
      hide ValueIn, Journal.Add;
      var front, line := b[..|b| - 1], b[|b| - 1].line;
      assert (a + b)[..|a + b| - 1] == a + front;
      TallyAppend(a, front, key);
      AddCounts(Journal.Tally(a + front), line, key);
      AddCounts(Journal.Tally(front), line, key);
    }
  }

  lemma SignalsSplit(log: seq<Entry>, a: nat, b: nat, c: nat, key: string)
    requires a <= b <= c <= |log|
    ensures Signals(log, a, c, key) == Signals(log, a, b, key) + Signals(log, b, c, key)
    ensures Signals(log, a, a, key) == 0
  {
    assert log[a..c] == log[a..b] + log[b..c];
    TallyAppend(log[a..b], log[b..c], key);
    assert log[a..a] == [];
  }

  /** The signals of a kind are the lines of that kind. */
  lemma SignalsAreLines(log: seq<Entry>, a: nat, b: nat)
    requires a <= b <= |log|
    ensures Signals(log, a, b, "auth_fail") == Journal.Lines(log[a..b], Journal.IsAuthFail())
    ensures Signals(log, a, b, "cache_evict") == Journal.Lines(log[a..b], Journal.IsEviction())
    ensures Signals(log, a, b, "cache_skip") == Journal.Lines(log[a..b], Journal.IsSkip())
    ensures Signals(log, a, b, "cancel") == Journal.Lines(log[a..b], Journal.IsCancel())
  {
    Journal.TallyCounts(log[a..b]);
  }

  /** A line counts in one life exactly when it is new to it. */
  lemma ReadCounts(log: seq<Entry>, key: string, w: World)
    requires Journal.Ticking(log) && Placed(log, w) && Guarded(log, w) && w.next < w.end
    ensures var m := Journal.Metered(w.meter, log[w.next]);
            ValueIn(m.counters, key) ==
            ValueIn(w.meter.counters, key) + if w.next == w.reached then Signals(log, w.next, w.next + 1, key) else 0
  {
    var e := log[w.next];
    assert log[w.next..w.next + 1] == [e];
    assert Journal.Tally([e]) == Journal.Add(Journal.Tally([]), e.line) by { assert [e][..0] == []; }
  }

  lemma {:induction false} LaterIsGreater(log: seq<Entry>, i: nat, j: nat)
    requires Journal.Ticking(log) && i < j < |log| && Journal.Counted(log[i].line) && Journal.Counted(log[j].line)
    ensures 0.0 < log[i].ts < log[j].ts
  {
    Journal.CountedAreNotLater(log, j);
    Positive(log, i);
  }

  lemma {:induction false} Positive(log: seq<Entry>, i: nat)
    requires Journal.Ticking(log) && i < |log|
    ensures Journal.Counted(log[i].line) ==> log[i].ts > 0.0
    ensures Journal.LastCounted(log[..i]) >= 0.0
  {
    if i == 0 {
      assert log[..0] == [];
    } else {
      Positive(log, i - 1);
      assert log[..i][..i - 1] == log[..i - 1];
    }
  }

  lemma GuardedKeeps(log: seq<Entry>, key: string, w: World, s: Step)
    requires Journal.Ticking(log) && Placed(log, w) && Guarded(log, w) && Enabled(log, w, s)
    ensures Placed(log, Next(log, key, w, s)) && Guarded(log, Next(log, key, w, s))
  {
    hide Journal.Ticking, Skipped, Signals, HiddenNow, CountsOf;
    match s
    case Read => ReadGuards(log, key, w);
    case Restart =>
      forall p | 0 <= p < |log| && Journal.Counted(log[p].line) ensures log[p].ts > 0.0 { Positive(log, p); }
    case _ =>
  }

  lemma ReadGuards(log: seq<Entry>, key: string, w: World)
    requires Journal.Ticking(log) && Placed(log, w) && Guarded(log, w) && Enabled(log, w, Read)
    ensures Placed(log, Next(log, key, w, Read)) && Guarded(log, Next(log, key, w, Read))
  {
    hide Journal.Ticking, Signals;
    forall p | w.next < p < |log| && Journal.Counted(log[p].line) && Journal.Counted(log[w.next].line)
      ensures log[w.next].ts < log[p].ts
    {
      LaterIsGreater(log, w.next, p);
    }
  }

  lemma BalancedKeeps(log: seq<Entry>, key: string, w: World, s: Step)
    requires Journal.Ticking(log) && Placed(log, w) && Guarded(log, w) && Balanced(log, key, w) && Enabled(log, w, s)
    requires Placed(log, Next(log, key, w, s))
    ensures Balanced(log, key, Next(log, key, w, s))
  {
    hide Journal.Ticking, Signals, Guarded, CountsOf, Journal.Metered;
    var r, f := w.reached, w.furthest;
    match s
    case Read =>
      ReadCounts(log, key, w);
      SignalsSplit(log, f, Max(f, r), Max(f, Max(r, w.next + 1)), key);
      if r == w.next && w.next < f {
        SignalsSplit(log, f, f, f, key);
      }
    case Spawn =>
      SignalsSplit(log, f, Max(f, r), Max(f, Max(r, Back(w.end))), key);
    case Restart =>
      SignalsSplit(log, f, f, f, key);
      ZeroCounts(key);
    case Poll =>
      SignalsSplit(log, f, Max(f, r), Max(f, r), key);
      SignalsSplit(log, r, r, r, key);
    case _ =>
  }

  lemma ZeroCounts(key: string)
    ensures ValueIn(Journal.ZERO, key) == 0
  {
  }

  lemma KeyIsThere(c: Journal.Counters, key: string)
    requires IsKey(key)
    ensures key in CountsOf(c) && CountsOf(c)[key] == ValueIn(c, key)
  {
  }

  lemma RememberedKeeps(log: seq<Entry>, key: string, w: World, s: Step)
    requires IsKey(key) && Remembered(key, w) && Enabled(log, w, s)
    ensures Remembered(key, Next(log, key, w, s))
  {
    hide CountsOf, IsKey, Skipped, Signals, HiddenNow;
    match s
    case Poll =>
      KeyIsThere(w.meter.counters, key);
      OneMorePoll(w.polls, CountsOf(w.meter.counters), key);
    case Silence => OneMorePoll(w.polls, map[], key);
    case _ =>
  }

  /** What a report adds to the column: what this life has counted since its own last one, less
      what it hides. */
  lemma ReportedDelta(key: string, w: World)
    requires IsKey(key) && Remembered(key, w) && w.first.Some? && ValueIn(w.meter.counters, key) >= w.reported
    ensures Delta(CountsOf(w.meter.counters), PrevAfter(w.polls), key)
         == Some(ValueIn(w.meter.counters, key) - w.reported - HiddenNow(w, key))
  {
    KeyIsThere(w.meter.counters, key);
    hide CountsOf;
  }

  lemma PollAccounts(log: seq<Entry>, key: string, w: World)
    requires IsKey(key) && Inv(log, key, w) && Placed(log, Next(log, key, w, Poll))
    ensures Accounted(log, key, Next(log, key, w, Poll))
  {
    hide CountsOf, IsKey, Skipped, Signals, HiddenNow, SumOf, Guarded, Delta, PrevAfter;
    OneMorePoll(w.polls, CountsOf(w.meter.counters), key);
    if w.first.None? {
      FirstDelta(w.polls, CountsOf(w.meter.counters), key);
      SignalsSplit(log, w.reached, w.reached, w.reached, key);
    } else {
      ReportedDelta(key, w);
      SignalsSplit(log, w.first.value, w.furthest, Max(w.furthest, w.reached), key);
    }
  }

  lemma AccountedKeeps(log: seq<Entry>, key: string, w: World, s: Step)
    requires IsKey(key) && Inv(log, key, w) && Enabled(log, w, s) && Placed(log, Next(log, key, w, s))
    ensures Accounted(log, key, Next(log, key, w, s))
  {
    hide CountsOf, IsKey, Skipped, Signals, HiddenNow, SumOf, Guarded, Balanced, Remembered, Journal.Metered;
    match s
    case Poll => PollAccounts(log, key, w);
    case Silence => OneMorePoll(w.polls, map[], key);
    case _ =>
  }

  lemma FirstDelta(polls: seq<Counts>, counters: Counts, key: string)
    requires PrevAfter(polls).None?
    ensures Delta(counters, PrevAfter(polls), key).Or(0) == 0
  {
  }

  lemma {:induction false} InvHolds(log: seq<Entry>, key: string, steps: seq<Step>)
    requires IsKey(key) && Journal.Ticking(log) && Run(log, key, steps).Some?
    ensures Inv(log, key, Run(log, key, steps).value)
    decreases |steps|
  {
    if steps == [] {
      SignalsSplit(log, 0, 0, 0, key);
      forall p | 0 <= p < |log| && Journal.Counted(log[p].line) ensures log[p].ts > 0.0 { Positive(log, p); }
    } else {
      hide Guarded, Balanced, Remembered, Accounted, Next, Enabled, Journal.Ticking;
      var front, s := steps[..|steps| - 1], steps[|steps| - 1];
      InvHolds(log, key, front);
      var w := Run(log, key, front).value;
      GuardedKeeps(log, key, w, s);
      BalancedKeeps(log, key, w, s);
      RememberedKeeps(log, key, w, s);
      AccountedKeeps(log, key, w, s);
    }
  }

  // ------------------------------------------------------------ main results --

  /** The main result, for any life of agent and tails: a column adds up to the signals written from
      the first report to the furthest line reported, more by those that a new life read again, and
      less by those that none read and by what restarts hid. */
  lemma SumIs(log: seq<Entry>, key: string, steps: seq<Step>)
    requires IsKey(key) && Journal.Ticking(log) && Run(log, key, steps).Some? && Run(log, key, steps).value.first.Some?
    ensures var w := Run(log, key, steps).value;
            && w.first.value <= w.furthest <= |log|
            && SumOf(w.polls, key)
               == (Signals(log, w.first.value, w.furthest, key) + w.replayed) as real - (w.missed + w.hidden) as real
  {
    InvHolds(log, key, steps);
  }

  /** The column is right after a run: it adds up to the signals written. */
  predicate RightAfter(log: seq<Entry>, key: string, steps: seq<Step>) {
    var w := Run(log, key, steps);
    w.Some? && w.value.first.Some? && w.value.first.value <= w.value.furthest <= |log| ==>
      SumOf(w.value.polls, key) == Signals(log, w.value.first.value, w.value.furthest, key) as real
  }

  /** The next step, if it is a report, brings in neither more nor less than was written. */
  predicate ReportsExactly(log: seq<Entry>, key: string, steps: seq<Step>, s: Step) {
    var w := Run(log, key, steps);
    w.Some? && w.value.first.Some? && s.Poll? ==> w.value.again == w.value.skipped + HiddenNow(w.value, key)
  }

  lemma RightIff(log: seq<Entry>, key: string, steps: seq<Step>)
    requires IsKey(key) && Journal.Ticking(log) && Run(log, key, steps).Some?
    ensures var w := Run(log, key, steps).value;
            RightAfter(log, key, steps) <==> w.replayed == w.missed + w.hidden
  {
    InvHolds(log, key, steps);
  }

  predicate AlwaysRight(log: seq<Entry>, key: string, steps: seq<Step>) {
    forall n :: 0 <= n <= |steps| ==> RightAfter(log, key, steps[..n])
  }

  predicate AlwaysExact(log: seq<Entry>, key: string, steps: seq<Step>) {
    forall n :: 0 <= n < |steps| ==> ReportsExactly(log, key, steps[..n], steps[n])
  }

  lemma AlwaysSnoc(log: seq<Entry>, key: string, steps: seq<Step>)
    requires steps != []
    ensures var front, s := steps[..|steps| - 1], steps[|steps| - 1];
            && (AlwaysRight(log, key, steps) <==> AlwaysRight(log, key, front) && RightAfter(log, key, steps))
            && (AlwaysExact(log, key, steps) <==> AlwaysExact(log, key, front) && ReportsExactly(log, key, front, s))
            && (AlwaysRight(log, key, front) ==> RightAfter(log, key, front))
  {
    hide RightAfter, ReportsExactly;
    var front := steps[..|steps| - 1];
    assert forall n :: 0 <= n <= |front| ==> front[..n] == steps[..n];
    assert steps[..|steps|] == steps && front[..|front|] == front;
  }

  /** Exactly when a column is right all along: no report since the first replays other than what it
      skips and hides. */
  lemma {:induction false} RightThroughoutIff(log: seq<Entry>, key: string, steps: seq<Step>)
    requires IsKey(key) && Journal.Ticking(log) && Run(log, key, steps).Some?
    ensures AlwaysRight(log, key, steps) <==> AlwaysExact(log, key, steps)
    decreases |steps|
  {
    if steps == [] {
      RightIff(log, key, []);
      assert steps[..0] == [];
    } else {
      hide RightAfter, ReportsExactly, AlwaysRight, AlwaysExact;
      OneMoreStep(log, key, steps);
      AlwaysSnoc(log, key, steps);
      RightThroughoutIff(log, key, steps[..|steps| - 1]);
    }
  }

  lemma OneMoreStep(log: seq<Entry>, key: string, steps: seq<Step>)
    requires IsKey(key) && Journal.Ticking(log) && Run(log, key, steps).Some? && steps != []
    ensures var front := steps[..|steps| - 1];
            && Run(log, key, front).Some?
            && (RightAfter(log, key, front) ==>
                  (RightAfter(log, key, steps) <==> ReportsExactly(log, key, front, steps[|steps| - 1])))
  {
    RightIff(log, key, steps);
    RightIff(log, key, steps[..|steps| - 1]);
    hide RightAfter, HiddenNow, Skipped, Signals;
  }

  // ------------------------------------------------------------ one restart --

  /** A life whose only tail started at `from` and has been read up to `next`. */
  predicate OneTail(log: seq<Entry>, key: string, w: World, from: nat)
    requires Placed(log, w)
  {
    && w.tailing && from <= w.next == w.reached
    && w.again == (if from < w.furthest then Signals(log, from, if w.next < w.furthest then w.next else w.furthest, key) else 0)
    && w.skipped == (if from > w.furthest then Signals(log, w.furthest, from, key) else 0)
  }

  /** The agent has come back and has no tail yet. */
  predicate Reborn(key: string, w: World) {
    !w.tailing && w.reached == w.next == w.again == w.skipped == w.reported == 0 && ValueIn(w.meter.counters, key) == 0
  }

  lemma RestartIsReborn(log: seq<Entry>, key: string, w: World)
    ensures Reborn(key, Next(log, key, w, Restart))
  {
    ZeroCounts(key);
  }

  lemma RebornStays(log: seq<Entry>, key: string, w: World, s: Step)
    requires Reborn(key, w) && Enabled(log, w, s) && (s.Write? || s.Silence? || s.Poll?) && w.first.Some?
    ensures Reborn(key, Next(log, key, w, s)) && Next(log, key, w, s).first.Some?
  {
  }

  lemma FirstTail(log: seq<Entry>, key: string, w: World)
    requires Placed(log, w) && Reborn(key, w) && Placed(log, Next(log, key, w, Spawn))
    ensures OneTail(log, key, Next(log, key, w, Spawn), Back(w.end))
  {
    var from := Back(w.end);
    if from <= w.furthest {
      SignalsSplit(log, w.furthest, w.furthest, w.furthest, key);
      SignalsSplit(log, from, from, w.furthest, key);
    }
  }

  lemma OneTailStays(log: seq<Entry>, key: string, w: World, from: nat, s: Step)
    requires Placed(log, w) && OneTail(log, key, w, from) && Enabled(log, w, s) && (s.Write? || s.Silence? || s.Read?)
    requires Placed(log, Next(log, key, w, s))
    ensures OneTail(log, key, Next(log, key, w, s), from)
  {
    hide Signals, Journal.Metered;
    if s.Read? && w.next < w.furthest {
      SignalsSplit(log, from, w.next, w.next + 1, key);
    }
  }

  /** Exactly when the first report of a new life's tail is right. One that shows as a drop: when no signal
      lies between where the new tail started and the furthest line reported before, on whichever
      side. One that does not: when what was read again is what the old life had counted. */
  lemma RestartIsExactIff(log: seq<Entry>, key: string, w: World, from: nat)
    requires IsKey(key) && Inv(log, key, w) && w.first.Some? && OneTail(log, key, w, from) && w.next >= w.furthest
    ensures var delta := Delta(CountsOf(w.meter.counters), PrevAfter(w.polls), key);
            var lo, hi := if from < w.furthest then from else w.furthest, Max(from, w.furthest);
            && delta.Some?
            && (HiddenNow(w, key) == 0 ==>
                  (delta.value == Signals(log, w.furthest, w.reached, key) <==> Signals(log, lo, hi, key) == 0))
            && (HiddenNow(w, key) > 0 ==>
                  (delta.value == Signals(log, w.furthest, w.reached, key) <==>
                   from < w.furthest && Signals(log, from, w.furthest, key) == HiddenNow(w, key)))
  {
    hide CountsOf, Signals, Guarded, SumOf, HiddenNow, IsKey;
    ReportedDelta(key, w);
    SignalsSplit(log, w.furthest, w.furthest, w.reached, key);
  }

  predicate Idle(steps: seq<Step>) { forall i :: 0 <= i < |steps| ==> steps[i].Write? || steps[i].Silence? || steps[i].Poll? }

  predicate Reading(steps: seq<Step>) {
    forall i :: 0 <= i < |steps| ==> steps[i].Write? || steps[i].Silence? || steps[i].Read?
  }

  lemma {:induction false} StillReborn(log: seq<Entry>, key: string, start: seq<Step>, steps: seq<Step>)
    requires Run(log, key, start).Some? && Reborn(key, Run(log, key, start).value) && Run(log, key, start).value.first.Some?
    requires Run(log, key, start + steps).Some? && Idle(steps)
    ensures Reborn(key, Run(log, key, start + steps).value) && Run(log, key, start + steps).value.first.Some?
    decreases |steps|
  {
    if steps == [] {
      assert start + steps == start;
    } else {
      assert (start + steps)[..|start + steps| - 1] == start + steps[..|steps| - 1];
      StillReborn(log, key, start, steps[..|steps| - 1]);
      RebornStays(log, key, Run(log, key, start + steps[..|steps| - 1]).value, steps[|steps| - 1]);
    }
  }

  lemma {:induction false} StillOneTail(log: seq<Entry>, key: string, start: seq<Step>, from: nat, steps: seq<Step>)
    requires IsKey(key) && Journal.Ticking(log) && Run(log, key, start).Some? && Placed(log, Run(log, key, start).value)
    requires OneTail(log, key, Run(log, key, start).value, from) && Run(log, key, start + steps).Some? && Reading(steps)
    ensures Inv(log, key, Run(log, key, start + steps).value)
    ensures OneTail(log, key, Run(log, key, start + steps).value, from)
    decreases |steps|
  {
    InvHolds(log, key, start + steps);
    if steps == [] {
      assert start + steps == start;
    } else {
      hide OneTail, Inv, Next, Enabled, Journal.Ticking, IsKey;
      assert (start + steps)[..|start + steps| - 1] == start + steps[..|steps| - 1];
      StillOneTail(log, key, start, from, steps[..|steps| - 1]);
      ReadOn(log, key, Run(log, key, start + steps[..|steps| - 1]).value, from, steps[|steps| - 1]);
    }
  }

  lemma ReadOn(log: seq<Entry>, key: string, w: World, from: nat, s: Step)
    requires Journal.Ticking(log) && Inv(log, key, w) && OneTail(log, key, w, from) && Enabled(log, w, s)
    requires s.Write? || s.Silence? || s.Read?
    ensures Placed(log, Next(log, key, w, s)) && OneTail(log, key, Next(log, key, w, s), from)
  {
    GuardedKeeps(log, key, w, s);
    OneTailStays(log, key, w, from, s);
  }

  /** The same over runs: the agent is started again, may report before it has a tail, starts its
      tail, and reads at least as far as was reported before. */
  lemma {:induction false} RestartedRunIsExactIff(log: seq<Entry>, key: string, before: seq<Step>, idle: seq<Step>, lines: seq<Step>)
    requires IsKey(key) && Journal.Ticking(log) && Idle(idle) && Reading(lines)
    requires Run(log, key, before).Some? && Run(log, key, before).value.first.Some?
    requires Run(log, key, before + [Restart] + idle).Some? && Run(log, key, before + [Restart] + idle + [Spawn] + lines).Some?
    requires var w := Run(log, key, before + [Restart] + idle + [Spawn] + lines).value;
             w.first.Some? && w.next >= w.furthest
    ensures var from := Back(Run(log, key, before + [Restart] + idle).value.end);
            var w := Run(log, key, before + [Restart] + idle + [Spawn] + lines).value;
            && from <= |log| && w.furthest <= w.reached <= |log|
            && var delta := Delta(CountsOf(w.meter.counters), PrevAfter(w.polls), key);
               var lo, hi := if from < w.furthest then from else w.furthest, Max(from, w.furthest);
               && delta.Some?
               && (HiddenNow(w, key) == 0 ==>
                     (delta.value == Signals(log, w.furthest, w.reached, key) <==> Signals(log, lo, hi, key) == 0))
               && (HiddenNow(w, key) > 0 ==>
                     (delta.value == Signals(log, w.furthest, w.reached, key) <==>
                      from < w.furthest && Signals(log, from, w.furthest, key) == HiddenNow(w, key)))
  {
    var waited := before + [Restart] + idle;
    RunSnoc(log, key, before, Restart);
    RestartIsReborn(log, key, Run(log, key, before).value);
    StillReborn(log, key, before + [Restart], idle);
    var w1 := Run(log, key, waited).value;
    RunSnoc(log, key, waited, Spawn);
    hide Run, Reborn, OneTail, Inv, Delta, HiddenNow;
    InvHolds(log, key, waited);
    InvHolds(log, key, waited + [Spawn]);
    Spawned(log, key, w1);
    StillOneTail(log, key, waited + [Spawn], Back(w1.end), lines);
    var w := Run(log, key, waited + [Spawn] + lines).value;
    CaughtUp(log, key, w, Back(w1.end));
    RestartIsExactIff(log, key, w, Back(w1.end));
  }

  lemma Spawned(log: seq<Entry>, key: string, w: World)
    requires Inv(log, key, w) && Reborn(key, w) && Inv(log, key, Next(log, key, w, Spawn))
    ensures Placed(log, Next(log, key, w, Spawn)) && OneTail(log, key, Next(log, key, w, Spawn), Back(w.end))
  {
    FirstTail(log, key, w);
  }

  lemma CaughtUp(log: seq<Entry>, key: string, w: World, from: nat)
    requires Inv(log, key, w) && OneTail(log, key, w, from) && w.next >= w.furthest
    ensures from <= |log| && w.furthest <= w.reached <= |log|
  {
  }

  // -------------------------------------------------------------- two failures --

  function Cancelled(ts: real): Entry { Journal.Entry(ts, Journal.Cancel) }

  lemma RunSnoc(log: seq<Entry>, key: string, steps: seq<Step>, s: Step)
    requires Run(log, key, steps).Some? && Enabled(log, Run(log, key, steps).value, s)
    ensures Run(log, key, steps + [s]) == Some(Next(log, key, Run(log, key, steps).value, s))
  {
    assert (steps + [s])[..|steps|] == steps;
  }

  function Writes(n: nat): seq<Step> {
    if n == 0 then [] else Writes(n - 1) + [Write]
  }

  lemma {:induction false} RunWrites(log: seq<Entry>, key: string, steps: seq<Step>, n: nat)
    requires Run(log, key, steps).Some? && Run(log, key, steps).value.end + n <= |log|
    ensures var w := Run(log, key, steps).value;
            Run(log, key, steps + Writes(n)) == Some(w.(end := w.end + n))
  {
    if n == 0 {
      assert steps + Writes(0) == steps;
    } else {
      hide Run;
      RunWrites(log, key, steps, n - 1);
      RunSnoc(log, key, steps + Writes(n - 1), Write);
      assert steps + Writes(n) == steps + Writes(n - 1) + [Write];
    }
  }

  /** One cancel, written, read and reported. */
  const ONE_REPORTED: seq<Step> := [Poll, Write, Spawn, Read, Poll]

  const AFTER_ONE := World(1, 1, 1, true, Journal.Meter(Journal.ZERO.(cancel := 1), 1.0),
                           [CountsOf(Journal.ZERO), CountsOf(Journal.ZERO.(cancel := 1))],
                           false, 1, Some(0), 1, 0, 0, 0, 0, 0)

  lemma {:induction false} OneReported(log: seq<Entry>)
    requires |log| >= 2 && log[0] == Cancelled(1.0)
    ensures Run(log, "cancel", ONE_REPORTED) == Some(AFTER_ONE)
  {
    var key := "cancel";
    var w1 := Next(log, key, BEGIN, Poll);
    var w2 := Next(log, key, w1, Write);
    var w3 := Next(log, key, w2, Spawn);
    var w4 := Next(log, key, w3, Read);
    RunSnoc(log, key, [], Poll);
    assert [] + [Poll] == [Poll];
    RunSnoc(log, key, [Poll], Write);
    assert [Poll] + [Write] == [Poll, Write];
    RunSnoc(log, key, [Poll, Write], Spawn);
    assert [Poll, Write] + [Spawn] == [Poll, Write, Spawn];
    RunSnoc(log, key, [Poll, Write, Spawn], Read);
    assert [Poll, Write, Spawn] + [Read] == [Poll, Write, Spawn, Read];
    RunSnoc(log, key, [Poll, Write, Spawn, Read], Poll);
    assert [Poll, Write, Spawn, Read] + [Poll] == ONE_REPORTED;
    assert w4.meter == Journal.Meter(Journal.ZERO.(cancel := 1), 1.0);
    assert Next(log, key, w4, Poll).polls == AFTER_ONE.polls;
    assert Next(log, key, w4, Poll) == AFTER_ONE;
  }

  lemma TwoCancels(log: seq<Entry>)
    requires |log| >= 2 && log[0] == Cancelled(1.0) && log[1] == Cancelled(2.0)
    ensures Signals(log, 0, 1, "cancel") == Signals(log, 1, 2, "cancel") == 1 && Signals(log, 0, 2, "cancel") == 2
  {
    SignalsSplit(log, 0, 1, 2, "cancel");
    assert log[0..1] == [log[0]] && log[1..2] == [log[1]];
    assert [log[0]][..0] == [] && [log[1]][..0] == [];
    assert Journal.Tally([log[0]]) == Journal.Add(Journal.ZERO, log[0].line);
    assert Journal.Tally([log[1]]) == Journal.Add(Journal.ZERO, log[1].line);
  }

  /** A restart that shows as a drop and loses a signal: it was written while the agent was down,
      more lines ago than a tail replays. */
  lemma {:induction false} ADropLosesASignal(log: seq<Entry>)
    requires |log| == 42 && log[0] == Cancelled(1.0) && log[1] == Cancelled(2.0)
    requires forall i :: 2 <= i < 42 ==> log[i].line == Journal.Unmatched
    ensures var steps := ONE_REPORTED + Writes(41) + [Restart, Spawn];
            && Run(log, "cancel", steps).Some?
            && var w := Run(log, "cancel", steps).value;
               HiddenNow(w, "cancel") == 0 && w.again == 0 && w.skipped == 1 && w.first == Some(0) && w.furthest == 1
               && !ReportsExactly(log, "cancel", steps, Poll)
  {
    hide Signals, Journal.Metered, Journal.Tally, Journal.LastCounted;
    var key := "cancel";
    OneReported(log);
    RunWrites(log, key, ONE_REPORTED, 41);
    var w1 := AFTER_ONE.(end := 42);
    var w2 := Next(log, key, w1, Restart);
    var w3 := Next(log, key, w2, Spawn);
    var steps := ONE_REPORTED + Writes(41);
    RunSnoc(log, key, steps, Restart);
    RunSnoc(log, key, steps + [Restart], Spawn);
    assert steps + [Restart] + [Spawn] == steps + [Restart, Spawn];
    TwoCancels(log);
    assert PrevAfter(w3.polls) == Some(CountsOf(Journal.ZERO.(cancel := 1)));
  }

  /** And one that shows as a drop and counts a signal twice. */
  lemma {:induction false} ADropRecountsASignal(log: seq<Entry>)
    requires |log| == 2 && log[0] == Cancelled(1.0) && log[1] == Cancelled(2.0)
    ensures var steps := ONE_REPORTED + [Write, Read, Poll, Restart, Spawn, Read];
            && Run(log, "cancel", steps).Some?
            && var w := Run(log, "cancel", steps).value;
               HiddenNow(w, "cancel") == 0 && w.again == 1 && w.skipped == 0 && w.first == Some(0) && w.furthest == 2
               && !ReportsExactly(log, "cancel", steps, Poll)
  {
    hide Signals, Journal.Tally;
    var key := "cancel";
    OneReported(log);
    var w1 := Next(log, key, AFTER_ONE, Write);
    var w2 := Next(log, key, w1, Read);
    assert w2.meter == Journal.Meter(Journal.ZERO.(cancel := 2), 2.0);
    var w3 := Next(log, key, w2, Poll);
    var w4 := Next(log, key, w3, Restart);
    var w5 := Next(log, key, w4, Spawn);
    var w6 := Next(log, key, w5, Read);
    RunSnoc(log, key, ONE_REPORTED, Write);
    RunSnoc(log, key, ONE_REPORTED + [Write], Read);
    assert ONE_REPORTED + [Write] + [Read] == ONE_REPORTED + [Write, Read];
    RunSnoc(log, key, ONE_REPORTED + [Write, Read], Poll);
    assert ONE_REPORTED + [Write, Read] + [Poll] == ONE_REPORTED + [Write, Read, Poll];
    RunSnoc(log, key, ONE_REPORTED + [Write, Read, Poll], Restart);
    assert ONE_REPORTED + [Write, Read, Poll] + [Restart] == ONE_REPORTED + [Write, Read, Poll, Restart];
    RunSnoc(log, key, ONE_REPORTED + [Write, Read, Poll, Restart], Spawn);
    assert ONE_REPORTED + [Write, Read, Poll, Restart] + [Spawn] == ONE_REPORTED + [Write, Read, Poll, Restart, Spawn];
    RunSnoc(log, key, ONE_REPORTED + [Write, Read, Poll, Restart, Spawn], Read);
    assert ONE_REPORTED + [Write, Read, Poll, Restart, Spawn] + [Read] == ONE_REPORTED + [Write, Read, Poll, Restart, Spawn, Read];
    TwoCancels(log);
    assert w6.meter == Journal.Meter(Journal.ZERO.(cancel := 1), 1.0);
    assert w6.polls[2] == CountsOf(Journal.ZERO.(cancel := 2)) && PrevAfter(w6.polls) == Some(w6.polls[2]);
  }

  // ---------------------------------------------------------------- history --

  /** From log lines to charts: every level of the history adds up to the signals written, as far as
      each restart was right. */
  lemma HistoryIs(log: seq<Entry>, key: string, steps: seq<Step>, ws: seq<Window>, chart: nat)
    requires IsKey(key) && Journal.Ticking(log) && Run(log, key, steps).Some? && Run(log, key, steps).value.first.Some?
    requires Ordered(ws) && Polls(ws) == Deltas(Run(log, key, steps).value.polls, key) && chart > 0
    ensures var w := Run(log, key, steps).value;
            && w.first.value <= w.furthest <= |log|
            && var total := (Signals(log, w.first.value, w.furthest, key) + w.replayed) as real - (w.missed + w.hidden) as real;
               var rows := Stored(Sum, ws);
               && Fold(Sum, Cells(Sum, rows)).Or(0.0) == total
               && Fold(Sum, Cells(Sum, GroupBy(Sum, rows, 3600))).Or(0.0) == total
               && Fold(Sum, Cells(Sum, GroupBy(Sum, GroupBy(Sum, rows, 300), chart))).Or(0.0) == total
  {
    SumIs(log, key, steps);
    ConservedThroughEveryLevel(Sum, ws, chart);
  }
}
