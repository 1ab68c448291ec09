/** Retention and rollups (app/inferenceinquire/store.py): an incremental fold with a persisted
    cursor, among writes, prunes and folds cut short. One column of one table at a time. */
module Rollups {

  import opened Basics
  import opened Aggregates

  /** One rollup table and its cursor: `upto` counts whole buckets, so the cursor stands at
      Stamp(upto, width). */
  datatype Level = Level(width: nat, upto: Option<int>, rolled: Table)

  function FloorBucket(x: real, width: nat): int
    requires width > 0
  {
    (x / width as real).Floor
  }

  /** Where the next fold starts: at the cursor, or, the first time, at the oldest raw row. */
  function FoldStart(raw: Table, l: Level): Option<int>
    requires l.width > 0
  {
    if l.upto.Some? then l.upto
    else if raw == map[] then None
    else Some(FloorBucket(Earliest(raw), l.width))
  }

  /** A fold inserts the aggregates of the complete buckets since the cursor, and moves the cursor
      unless it is cut off first. */
  function Folded(rule: Rule, raw: Table, l: Level, now: real, lag: real, completes: bool): Level
    requires l.width > 0
  {
    var start := FoldStart(raw, l);
    var until := FloorBucket(now - lag, l.width);
    if start.None? || until <= start.value then l
    else
      var rows := Range(raw, Stamp(start.value, l.width), Stamp(until, l.width));
      Level(l.width, if completes then Some(until) else l.upto, l.rolled + GroupBy(rule, rows, l.width))
  }

  function Since<T>(t: map<real, T>, cutoff: real): map<real, T> { map x | x in t && x >= cutoff :: t[x] }

  class Store {
    const rule: Rule
    const lag: real
    var raw: Table
    var levels: seq<Level>

    constructor (rule: Rule, lag: real, widths: seq<nat>)
      ensures this.rule == rule && this.lag == lag && raw == map[]
      ensures |levels| == |widths| && forall i :: 0 <= i < |widths| ==> levels[i] == Level(widths[i], None, map[])
    {
      this.rule, this.lag, raw := rule, lag, map[];
      levels := seq(|widths|, i requires 0 <= i < |widths| => Level(widths[i], None, map[]));
    }

    method Write(ts: real, row: Row)
      modifies this`raw
      ensures raw == old(raw)[ts := row]
    {
      raw := raw[ts := row];
    }

    /** Folds every level in turn. */
    method Rollup(now: real)
      requires forall i :: 0 <= i < |levels| ==> levels[i].width > 0
      modifies this`levels
      ensures |levels| == |old(levels)|
      ensures forall i :: 0 <= i < |levels| ==> levels[i] == Folded(rule, raw, old(levels)[i], now, lag, true)
    {
      for i := 0 to |levels|
        invariant |levels| == |old(levels)|
        invariant forall j :: 0 <= j < i ==> levels[j] == Folded(rule, raw, old(levels)[j], now, lag, true)
        invariant forall j :: i <= j < |levels| ==> levels[j] == old(levels)[j]
      {
        var l := levels[i];
        var upto := l.upto;
        if upto.None? {
          if raw == map[] { continue; }
          upto := Some(FloorBucket(Earliest(raw), l.width));
        }
        var until := FloorBucket(now - lag, l.width);
        if until <= upto.value { continue; }
        var rows := Range(raw, Stamp(upto.value, l.width), Stamp(until, l.width));
        l := l.(rolled := l.rolled + GroupBy(rule, rows, l.width));
        levels := levels[i := l.(upto := Some(until))];
      }
    }

    method Prune(cutoff: real, levelCutoffs: seq<real>)
      requires |levelCutoffs| == |levels|
      modifies this`raw, this`levels
      ensures raw == Since(old(raw), cutoff) && |levels| == |old(levels)|
      ensures forall i :: 0 <= i < |levels| ==>
        levels[i] == old(levels)[i].(rolled := Since(old(levels)[i].rolled, levelCutoffs[i]))
    {
      raw := Since(raw, cutoff);
      for i := 0 to |levels|
        invariant raw == Since(old(raw), cutoff) && |levels| == |old(levels)|
        invariant forall j :: 0 <= j < i ==> levels[j] == old(levels)[j].(rolled := Since(old(levels)[j].rolled, levelCutoffs[j]))
        invariant forall j :: i <= j < |levels| ==> levels[j] == old(levels)[j]
      {
        levels := levels[i := levels[i].(rolled := Since(levels[i].rolled, levelCutoffs[i]))];
      }
    }
  }

  // -------------------------------------------------------------------- runs --

  /** The database; with every row ever written, the time, and how far each level was pruned. */
  datatype World = World(raw: Table, levels: seq<Level>, ever: Table, clock: real, dropped: seq<real>)

  datatype Event =
    | Write(ts: real, row: Row)
    | FoldLevel(i: nat, now: real, completes: bool)
    | Prune(cutoff: real, levelCutoffs: seq<real>)

  /** Time does not run backwards. A prune may come at any moment: nothing in the loop ties it to how
      far the folds have got. */
  predicate Enabled(w: World, e: Event) {
    match e
    case Write(ts, _) => ts >= w.clock
    case FoldLevel(i, now, _) => i < |w.levels| && w.levels[i].width > 0 && now >= w.clock
    case Prune(_, cs) => |cs| == |w.levels| && |cs| == |w.dropped|
  }

  function Later(a: real, b: real): real { if a >= b then a else b }

  function Next(rule: Rule, lag: real, w: World, e: Event): World
    requires Enabled(w, e)
  {
    match e
    case Write(ts, row) => w.(raw := w.raw[ts := row], ever := w.ever[ts := row], clock := ts)
    case FoldLevel(i, now, completes) =>
      w.(levels := w.levels[i := Folded(rule, w.raw, w.levels[i], now, lag, completes)], clock := now)
    case Prune(cutoff, cs) =>
      w.(raw := Since(w.raw, cutoff),
         levels := seq(|cs|, i requires 0 <= i < |cs| => w.levels[i].(rolled := Since(w.levels[i].rolled, cs[i]))),
         dropped := seq(|cs|, i requires 0 <= i < |cs| => Later(w.dropped[i], cs[i])))
  }

  function Begin(widths: seq<nat>): World {
    World(map[], seq(|widths|, i requires 0 <= i < |widths| => Level(widths[i], None, map[])), map[], 0.0,
          seq(|widths|, i => 0.0))
  }

  function Run(rule: Rule, lag: real, widths: seq<nat>, events: seq<Event>): Option<World> {
    if events == [] then Some(Begin(widths))
    else
      var before, e := Run(rule, lag, widths, events[..|events| - 1]), events[|events| - 1];
      if before.None? || !Enabled(before.value, e) then None else Some(Next(rule, lag, before.value, e))
  }

  /** No raw row before the cutoff is one a level has yet to fold. */
  predicate SafeFor(l: Level, raw: Table, cutoff: real) {
    forall ts :: ts in raw && ts < cutoff ==> Below(l, ts)
  }

  predicate Safe(w: World, cutoff: real) {
    forall i :: 0 <= i < |w.levels| ==> SafeFor(w.levels[i], w.raw, cutoff)
  }

  predicate SafeEvent(w: World, e: Event) { e.Prune? ==> Safe(w, e.cutoff) }

  /** Every prune of the run came at a moment when it was safe. */
  predicate SafeRun(rule: Rule, lag: real, widths: seq<nat>, events: seq<Event>) {
    events == [] ||
    (SafeRun(rule, lag, widths, events[..|events| - 1]) &&
     var before := Run(rule, lag, widths, events[..|events| - 1]);
     before.Some? ==> SafeEvent(before.value, events[|events| - 1]))
  }

  // --------------------------------------------------------------- invariant --

  predicate Below(l: Level, s: real) { l.upto.Some? && s < Stamp(l.upto.value, l.width) }

  /** The rows not folded yet are all still there. */
  predicate Intact(l: Level, raw: Table, ever: Table) {
    forall ts :: ts in ever && !Below(l, ts) ==> ts in raw
  }

  /** The one-shot fold: a retained bucket below the cursor is there if any row of it was ever
      written, and is the aggregate of all of them. */
  predicate OneShot(rule: Rule, l: Level, ever: Table, dropped: real)
    requires l.width > 0
  {
    forall s :: s in StampsOf(ever, l.width) && Below(l, s) && s >= dropped ==>
      s in l.rolled && l.rolled[s] == AggregateRows(rule, InBucket(ever, l.width, s))
  }

  predicate LevelOk(rule: Rule, l: Level, raw: Table, ever: Table, clock: real, dropped: real) {
    && l.width > 0
    && (l.upto.Some? ==> Stamp(l.upto.value, l.width) <= clock)
    && Intact(l, raw, ever)
    && (forall s :: s in l.rolled ==> s in StampsOf(ever, l.width))
    && OneShot(rule, l, ever, dropped)
  }

  predicate RowsOk(raw: Table, ever: Table, clock: real) {
    && clock >= 0.0
    && (forall ts :: ts in ever ==> 0.0 <= ts <= clock)
    && (forall ts :: ts in raw ==> ts in ever && raw[ts] == ever[ts])
  }

  predicate Inv(rule: Rule, w: World) {
    && RowsOk(w.raw, w.ever, w.clock)
    && |w.dropped| == |w.levels|
    && forall i :: 0 <= i < |w.levels| ==> LevelOk(rule, w.levels[i], w.raw, w.ever, w.clock, w.dropped[i])
  }

  lemma WriteKeeps(rule: Rule, l: Level, raw: Table, ever: Table, clock: real, dropped: real, ts: real, row: Row)
    requires RowsOk(raw, ever, clock) && LevelOk(rule, l, raw, ever, clock, dropped) && ts >= clock
    ensures LevelOk(rule, l, raw[ts := row], ever[ts := row], ts, dropped)
  {
    var after := ever[ts := row];
    forall s | s in StampsOf(after, l.width) && Below(l, s)
      ensures s in StampsOf(ever, l.width) && InBucket(after, l.width, s) == InBucket(ever, l.width, s)
    {
      AlignedSide(ts, l.width, l.upto.value);
      assert StampOf(ts, l.width) != s;
    }
    forall s | s in StampsOf(ever, l.width) ensures s in StampsOf(after, l.width) {
      var x :| x in ever && StampOf(x, l.width) == s;
      assert x in after;
    }
  }

  lemma ClockKeeps(rule: Rule, l: Level, raw: Table, ever: Table, clock: real, dropped: real, now: real)
    requires LevelOk(rule, l, raw, ever, clock, dropped) && now >= clock
    ensures LevelOk(rule, l, raw, ever, now, dropped)
  {
  }

  lemma FoldKeeps(rule: Rule, l: Level, raw: Table, ever: Table, clock: real, dropped: real, now: real, lag: real, completes: bool)
    requires RowsOk(raw, ever, clock) && LevelOk(rule, l, raw, ever, clock, dropped) && now >= clock && lag >= 0.0
    ensures LevelOk(rule, Folded(rule, raw, l, now, lag, completes), raw, ever, now, dropped)
  {
    var w := l.width;
    var start, n := FoldStart(raw, l), FloorBucket(now - lag, w);
    if start.Some? && n > start.value {
      var u := start.value;
      var rows := Range(raw, Stamp(u, w), Stamp(n, w));
      FloorBelow(now - lag, w);
      ScaleInt(u, n, w);
      forall x | x in ever
        ensures StampOf(x, w) >= Stamp(u, w) <==> x >= Stamp(u, w)
        ensures StampOf(x, w) >= Stamp(n, w) <==> x >= Stamp(n, w)
        ensures l.upto.None? ==> x >= Stamp(u, w)
      {
        AlignedSide(x, w, u);
        AlignedSide(x, w, n);
        if l.upto.None? { FloorBelow(Earliest(raw), w); }
      }
      assert Selects(raw, ever, l, u, n);
      FoldedBuckets(rule, l, raw, ever, dropped, u, n);
    }
  }

  lemma FloorBelow(x: real, w: nat)
    requires w > 0
    ensures Stamp(FloorBucket(x, w), w) <= x < Stamp(FloorBucket(x, w), w) + w as real
  {
    var q := x / w as real;
    StampIsProduct(q.Floor, w);
    assert x == q * w as real;
    FloorBounds(q, q.Floor as real, w as real, x, Stamp(q.Floor, w));
  }

  /** The rows a fold selects: those from the cursor on, all of which are still there. */
  predicate Selects(raw: Table, ever: Table, l: Level, u: int, n: int)
    requires l.width > 0
  {
    && Intact(l, raw, ever)
    && (l.upto.Some? ==> l.upto.value == u)
    && Stamp(u, l.width) <= Stamp(n, l.width)
    && (forall ts :: ts in raw ==> ts in ever && raw[ts] == ever[ts])
    && (forall x :: x in ever ==>
      && (StampOf(x, l.width) >= Stamp(u, l.width) <==> x >= Stamp(u, l.width))
      && (StampOf(x, l.width) >= Stamp(n, l.width) <==> x >= Stamp(n, l.width))
      && (l.upto.None? ==> x >= Stamp(u, l.width)))
  }

  /** What a fold inserts: exactly the buckets in its range, each the aggregate of all rows ever
      written to it. */
  lemma InsertedBuckets(rule: Rule, l: Level, raw: Table, ever: Table, u: int, n: int)
    requires l.width > 0 && Selects(raw, ever, l, u, n)
    ensures var add := GroupBy(rule, Range(raw, Stamp(u, l.width), Stamp(n, l.width)), l.width);
            forall s :: (s in add <==> s in StampsOf(ever, l.width) && Stamp(u, l.width) <= s < Stamp(n, l.width))
              && (s in add ==> add[s] == AggregateRows(rule, InBucket(ever, l.width, s)))
  {
    var w := l.width;
    var rows := Range(raw, Stamp(u, w), Stamp(n, w));
    hide AggregateRows, StampOf, Stamp;
    forall s | s in StampsOf(rows, w)
      ensures Stamp(u, w) <= s < Stamp(n, w) && s in StampsOf(ever, w)
    {
      var x :| x in rows && StampOf(x, w) == s;
      assert x in ever;
    }
    forall s | s in StampsOf(ever, w) && Stamp(u, w) <= s < Stamp(n, w)
      ensures s in StampsOf(rows, w) && InBucket(rows, w, s) == InBucket(ever, w, s)
    {
      var x :| x in ever && StampOf(x, w) == s;
      assert x in rows;
    }
  }

  /** A fold stays behind: it writes no bucket that had not ended the lag before, and where its cursor
      moves, it comes to the last boundary by then. */
  lemma FoldStaysBehind(rule: Rule, raw: Table, l: Level, now: real, lag: real, completes: bool)
    requires l.width > 0 && forall ts :: ts in raw ==> ts >= 0.0
    ensures var f := Folded(rule, raw, l, now, lag, completes);
            && (forall s :: s in f.rolled && s !in l.rolled ==> s + l.width as real <= now - lag)
            && (f.upto != l.upto ==>
                  f.upto.Some? && Stamp(f.upto.value, l.width) <= now - lag < Stamp(f.upto.value, l.width) + l.width as real)
            && (!completes ==> f.upto == l.upto)
  {
    hide GroupBy, AggregateRows, FloorBucket, Stamp, StampOf;
    var w := l.width;
    var start, n := FoldStart(raw, l), FloorBucket(now - lag, w);
    FloorBelow(now - lag, w);
    if start.Some? && n > start.value {
      var rows := Range(raw, Stamp(start.value, w), Stamp(n, w));
      var add := GroupBy(rule, rows, w);
      forall s | s in add ensures s + w as real <= Stamp(n, w) {
        GroupKeys(rule, rows, w, s);
        var x :| x in rows && StampOf(x, w) == s;
        AlignedSide(x, w, n);
        EndsBy(x, w, n);
      }
    }
  }

  lemma GroupKeys(rule: Rule, rows: Table, width: nat, s: real)
    requires width > 0 && s in GroupBy(rule, rows, width)
    ensures exists x :: x in rows && StampOf(x, width) == s
  {
  }

  lemma EndsBy(x: real, width: nat, n: int)
    requires width > 0 && StampOf(x, width) < Stamp(n, width)
    ensures StampOf(x, width) + width as real <= Stamp(n, width)
  {
    var b := BucketOf(x, width);
    ScaleInt(b, n, width);
  }

  /** Tables agreeing with the one-shot fold on a range of buckets, put over one that agrees below. */
  lemma LaidOver(rule: Rule, l: Level, add: Table, ever: Table, dropped: real, u: int, n: int)
    requires l.width > 0 && OneShot(rule, l, ever, dropped) && Stamp(u, l.width) <= Stamp(n, l.width)
    requires l.upto.Some? ==> l.upto.value == u
    requires forall s :: s in StampsOf(ever, l.width) && l.upto.None? ==> s >= Stamp(u, l.width)
    requires forall s :: s in add <==> s in StampsOf(ever, l.width) && Stamp(u, l.width) <= s < Stamp(n, l.width)
    requires forall s :: s in add ==> add[s] == AggregateRows(rule, InBucket(ever, l.width, s))
    ensures OneShot(rule, Level(l.width, Some(n), l.rolled + add), ever, dropped)
    ensures OneShot(rule, l.(rolled := l.rolled + add), ever, dropped)
  {
    hide AggregateRows, InBucket, StampsOf, Stamp;
    var both := l.rolled + add;
    forall s | s in StampsOf(ever, l.width) && s < Stamp(n, l.width) && s >= dropped
      ensures s in both && both[s] == AggregateRows(rule, InBucket(ever, l.width, s))
    {
      if s !in add { assert Below(l, s); }
    }
    if l.upto.Some? { assert Stamp(l.upto.value, l.width) <= Stamp(n, l.width); }
  }

  lemma FoldedBuckets(rule: Rule, l: Level, raw: Table, ever: Table, dropped: real, u: int, n: int)
    requires l.width > 0 && OneShot(rule, l, ever, dropped) && Selects(raw, ever, l, u, n)
    requires forall s :: s in l.rolled ==> s in StampsOf(ever, l.width)
    ensures var rows := Range(raw, Stamp(u, l.width), Stamp(n, l.width));
            var after := Level(l.width, Some(n), l.rolled + GroupBy(rule, rows, l.width));
            && OneShot(rule, after, ever, dropped)
            && OneShot(rule, after.(upto := l.upto), ever, dropped)
            && forall s :: s in after.rolled ==> s in StampsOf(ever, l.width)
  {
    var add := GroupBy(rule, Range(raw, Stamp(u, l.width), Stamp(n, l.width)), l.width);
    InsertedBuckets(rule, l, raw, ever, u, n);
    forall s | s in StampsOf(ever, l.width) && l.upto.None? ensures s >= Stamp(u, l.width) {
      var x :| x in ever && StampOf(x, l.width) == s;
    }
    hide GroupBy, AggregateRows, InBucket, StampsOf, Range, Stamp, StampOf, OneShot;
    LaidOver(rule, l, add, ever, dropped, u, n);
  }

  lemma PruneKeeps(rule: Rule, l: Level, raw: Table, ever: Table, clock: real, dropped: real, cutoff: real, c: real)
    requires LevelOk(rule, l, raw, ever, clock, dropped)
    requires forall ts :: ts in raw ==> ts in ever
    ensures SafeFor(l, raw, cutoff) <==> Intact(l, Since(raw, cutoff), ever)
    ensures var after := l.(rolled := Since(l.rolled, c));
            SafeFor(l, raw, cutoff) ==> LevelOk(rule, after, Since(raw, cutoff), ever, clock, Later(dropped, c))
  {
    var after := l.(rolled := Since(l.rolled, c));
    assert OneShot(rule, after, ever, Later(dropped, c)) by {
      hide AggregateRows, InBucket, StampsOf, Stamp;
      assert forall s :: Below(after, s) ==> Below(l, s);
    }
    if SafeFor(l, raw, cutoff) {
      assert forall ts :: ts in ever && !Below(l, ts) ==> ts in Since(raw, cutoff);
      assert forall ts :: Below(after, ts) <==> Below(l, ts);
      assert Intact(after, Since(raw, cutoff), ever);
    } else {
      var ts :| ts in raw && ts < cutoff && !Below(l, ts);
      assert ts in ever && ts !in Since(raw, cutoff);
    }
  }

  lemma StepKeeps(rule: Rule, lag: real, w: World, e: Event)
    requires Inv(rule, w) && lag >= 0.0 && Enabled(w, e) && SafeEvent(w, e)
    ensures Inv(rule, Next(rule, lag, w, e))
  {
    hide LevelOk, SafeFor;
    var after := Next(rule, lag, w, e);
    match e
    case Write(ts, row) =>
      forall i | 0 <= i < |w.levels| ensures LevelOk(rule, after.levels[i], after.raw, after.ever, ts, after.dropped[i]) {
        WriteKeeps(rule, w.levels[i], w.raw, w.ever, w.clock, w.dropped[i], ts, row);
      }
    case FoldLevel(k, now, completes) =>
      hide Folded;
      forall i | 0 <= i < |w.levels| ensures LevelOk(rule, after.levels[i], w.raw, w.ever, now, w.dropped[i]) {
        ClockKeeps(rule, w.levels[i], w.raw, w.ever, w.clock, w.dropped[i], now);
        if i == k {
          FoldKeeps(rule, w.levels[i], w.raw, w.ever, w.clock, w.dropped[i], now, lag, completes);
        }
      }
    case Prune(cutoff, cs) =>
      forall i | 0 <= i < |w.levels| ensures LevelOk(rule, after.levels[i], after.raw, w.ever, w.clock, after.dropped[i]) {
        assert SafeFor(w.levels[i], w.raw, cutoff);
        PruneKeeps(rule, w.levels[i], w.raw, w.ever, w.clock, w.dropped[i], cutoff, cs[i]);
      }
  }

  lemma {:induction false} InvHolds(rule: Rule, lag: real, widths: seq<nat>, events: seq<Event>)
    requires lag >= 0.0 && forall i :: 0 <= i < |widths| ==> widths[i] > 0
    requires Run(rule, lag, widths, events).Some? && SafeRun(rule, lag, widths, events)
    ensures Inv(rule, Run(rule, lag, widths, events).value)
  {
    if events == [] {
    } else {
      var front := events[..|events| - 1];
      InvHolds(rule, lag, widths, front);
      StepKeeps(rule, lag, Run(rule, lag, widths, front).value, events[|events| - 1]);
    }
  }

  /** A rollup table holds only buckets the one-shot group-by has, and every retained one below the
      cursor with the same aggregate. */
  predicate AgreesWith(l: Level, once: Table, dropped: real) {
    && (forall s :: s in l.rolled ==> s in once)
    && (forall s :: s in once && Below(l, s) && s >= dropped ==> s in l.rolled && l.rolled[s] == once[s])
  }

  lemma OneShotAgrees(rule: Rule, l: Level, raw: Table, ever: Table, clock: real, dropped: real)
    requires LevelOk(rule, l, raw, ever, clock, dropped)
    ensures AgreesWith(l, GroupBy(rule, ever, l.width), dropped)
  {
    hide AggregateRows, StampsOf, InBucket, Stamp;
  }

  /** The main result: over any run of writes, folds (some cut off before their cursor moves) and
      safe prunes, a rollup table holds for every retained bucket below the cursor exactly the
      group-by of all the rows ever written, those pruned since included. */
  lemma IncrementalEqualsOneShot(rule: Rule, lag: real, widths: seq<nat>, events: seq<Event>)
    requires lag >= 0.0 && forall i :: 0 <= i < |widths| ==> widths[i] > 0
    requires Run(rule, lag, widths, events).Some? && SafeRun(rule, lag, widths, events)
    ensures var w := Run(rule, lag, widths, events).value;
            |w.levels| == |w.dropped| == |widths| && forall i :: 0 <= i < |w.levels| ==>
              (w.levels[i].width == widths[i] && AgreesWith(w.levels[i], GroupBy(rule, w.ever, widths[i]), w.dropped[i]))
  {
    var w := Run(rule, lag, widths, events).value;
    InvHolds(rule, lag, widths, events);
    WidthsStay(rule, lag, widths, events);
    hide LevelOk, AgreesWith, GroupBy;
    forall i | 0 <= i < |w.levels| ensures AgreesWith(w.levels[i], GroupBy(rule, w.ever, widths[i]), w.dropped[i]) {
      OneShotAgrees(rule, w.levels[i], w.raw, w.ever, w.clock, w.dropped[i]);
    }
  }

  lemma {:induction false} WidthsStay(rule: Rule, lag: real, widths: seq<nat>, events: seq<Event>)
    requires Run(rule, lag, widths, events).Some?
    ensures var w := Run(rule, lag, widths, events).value;
            |w.levels| == |w.dropped| == |widths| && forall i :: 0 <= i < |widths| ==> w.levels[i].width == widths[i]
  {
    if events == [] {
    } else {
      WidthsStay(rule, lag, widths, events[..|events| - 1]);
    }
  }

  // ------------------------------------------------------------ safe pruning --

  /** A prune leaves every row still to be folded exactly when it is safe. */
  lemma PruneIsSafeIff(rule: Rule, lag: real, w: World, cutoff: real, cs: seq<real>)
    requires Inv(rule, w) && Enabled(w, Prune(cutoff, cs))
    ensures var after := Next(rule, lag, w, Prune(cutoff, cs));
            Safe(w, cutoff) <==> forall i :: 0 <= i < |w.levels| ==> Intact(after.levels[i], after.raw, after.ever)
  {
    hide LevelOk, SafeFor, Intact;
    var after := Next(rule, lag, w, Prune(cutoff, cs));
    forall i | 0 <= i < |w.levels|
      ensures SafeFor(w.levels[i], w.raw, cutoff) <==> Intact(after.levels[i], after.raw, after.ever)
    {
      PruneKeeps(rule, w.levels[i], w.raw, w.ever, w.clock, w.dropped[i], cutoff, cs[i]);
      SameCursor(w.levels[i], after.levels[i], after.raw, after.ever);
    }
  }

  lemma SameCursor(a: Level, b: Level, raw: Table, ever: Table)
    requires a.width == b.width && a.upto == b.upto
    ensures Intact(a, raw, ever) <==> Intact(b, raw, ever)
  {
    assert forall ts :: Below(a, ts) <==> Below(b, ts);
  }

  // ------------------------------------------------ what an unsafe prune does --

  /** The aggregate of a table determines the value of any one of its rows no more than its column's
      rule lets it, but two values tell it apart. */
  lemma ValuesShow(rule: Rule, t: Table, ts: real) returns (a: Row, b: Row)
    ensures AggregateRows(rule, t[ts := a]).v != AggregateRows(rule, t[ts := b]).v
  {
    hide Fold, Count, AggregateRows, Cells;
    var rest := t - {ts};
    var other := Fold(rule, Cells(rule, rest)).Or(0.0);
    var d := if rule == Min then -1.0 else 1.0;
    a, b := Row(Some(other + d), None), Row(Some(other + d + d), None);
    OneRowOfMany(rule, t, ts, other + d);
    OneRowOfMany(rule, t, ts, other + d + d);
    if rule == Avg {
      QuotientsDiffer(Fold(Sum, Cells(Avg, rest)).Or(0.0) + other + d, 1.0 + Count(Cells(Avg, rest)));
    }
  }

  lemma OneRowOfMany(rule: Rule, t: Table, ts: real, x: real)
    ensures var rest, agg := Cells(rule, t - {ts}), AggregateRows(rule, t[ts := Row(Some(x), None)]).v;
            && Count(rest) >= 0.0
            && agg == if rule == Avg then Some((Fold(Sum, rest).Or(0.0) + x) / (1.0 + Count(rest)))
                      else Combine(rule, Some(x), Fold(rule, rest))
  {
    var row := Row(Some(x), None);
    var rest := Cells(rule, t - {ts});
    var whole := Cells(rule, t[ts := row]);
    assert whole - {ts} == rest && whole[ts] == Some(x);
    FoldAny(rule, whole, ts);
    OneMore(whole, ts);
    CountNotNegative(rest);
  }

  lemma {:induction false} CountNotNegative(m: Column)
    ensures Count(m) >= 0.0
    decreases |m|
  {
    if m == map[] {
      assert Ones(m) == map[];
    } else {
      var x := Earliest(m);
      OneMore(m, x);
      CountNotNegative(m - {x});
    }
  }

  lemma QuotientsDiffer(x: real, n: real)
    requires n >= 1.0
    ensures x / n != (x + 1.0) / n
  {
    assert x / n * n == x && (x + 1.0) / n * n == x + 1.0;
  }

  /** The values of rows no fold has seen do not matter to a level so far. */
  lemma UnseenValue(rule: Rule, l: Level, raw: Table, ever: Table, clock: real, dropped: real, ts: real, row: Row)
    requires RowsOk(raw, ever, clock) && LevelOk(rule, l, raw, ever, clock, dropped) && ts in raw && !Below(l, ts)
    ensures RowsOk(raw[ts := row], ever[ts := row], clock)
    ensures LevelOk(rule, l, raw[ts := row], ever[ts := row], clock, dropped)
  {
    var w, after := l.width, ever[ts := row];
    assert StampsOf(after, w) == StampsOf(ever, w) by {
      forall x | x in ever ensures x in after && StampOf(x, w) in StampsOf(after, w) {}
    }
    forall s | s in StampsOf(ever, w) && Below(l, s) ensures InBucket(after, w, s) == InBucket(ever, w, s) {
      AlignedSide(ts, w, l.upto.value);
      assert StampOf(ts, w) != s;
    }
    hide AggregateRows, StampOf, Stamp, StampsOf, InBucket;
  }

  /** A fold that comes after a prune and goes past all that the prune took. */
  predicate GoesPast(rule: Rule, l: Level, raw: Table, cutoff: real, now: real, lag: real, dropped: real)
    requires l.width > 0
  {
    forall ts :: ts in raw && ts < cutoff ==>
      StampOf(ts, l.width) >= dropped && Below(Folded(rule, Since(raw, cutoff), l, now, lag, true), StampOf(ts, l.width))
  }

  /** The rollup is right after the prune and the fold, whatever the value of one row no fold had seen. */
  predicate RightForAny(rule: Rule, l: Level, raw: Table, ever: Table, cutoff: real, now: real, lag: real, dropped: real, ts: real, row: Row)
    requires l.width > 0
  {
    AgreesWith(Folded(rule, Since(raw[ts := row], cutoff), l, now, lag, true), GroupBy(rule, ever[ts := row], l.width), dropped)
  }

  lemma SafeIsRight(rule: Rule, l: Level, raw: Table, ever: Table, clock: real, dropped: real,
                    cutoff: real, now: real, lag: real, ts: real, row: Row)
    requires RowsOk(raw, ever, clock) && LevelOk(rule, l, raw, ever, clock, dropped) && now >= clock && lag >= 0.0
    requires SafeFor(l, raw, cutoff) && ts in raw && !Below(l, ts)
    ensures RightForAny(rule, l, raw, ever, cutoff, now, lag, dropped, ts, row)
  {
    var raw', ever' := raw[ts := row], ever[ts := row];
    UnseenValue(rule, l, raw, ever, clock, dropped, ts, row);
    PruneKeeps(rule, l, raw', ever', clock, dropped, cutoff, dropped);
    var kept := Since(raw', cutoff);
    SameLevel(rule, l, kept, ever', clock, dropped);
    FoldKeeps(rule, l, kept, ever', clock, dropped, now, lag, true);
    OneShotAgrees(rule, Folded(rule, kept, l, now, lag, true), kept, ever', now, dropped);
  }

  lemma UnsafeIsWrong(rule: Rule, l: Level, raw: Table, ever: Table, dropped: real, cutoff: real, now: real, lag: real, ts: real)
      returns (row: Row)
    requires l.width > 0 && ts in raw && ts in ever && ts < cutoff
    requires GoesPast(rule, l, raw, cutoff, now, lag, dropped)
    ensures !RightForAny(rule, l, raw, ever, cutoff, now, lag, dropped, ts, row)
  {
    hide AggregateRows, InBucket, Folded, Since, StampOf, RightForAny, GoesPast;
    var bucket := InBucket(ever, l.width, StampOf(ts, l.width));
    var a, b := ValuesShow(rule, bucket, ts);
    if RightForAny(rule, l, raw, ever, cutoff, now, lag, dropped, ts, a) {
      RightOnlyIf(rule, l, raw, ever, dropped, cutoff, now, lag, ts, a);
    }
    if RightForAny(rule, l, raw, ever, cutoff, now, lag, dropped, ts, b) {
      RightOnlyIf(rule, l, raw, ever, dropped, cutoff, now, lag, ts, b);
    }
    row := if RightForAny(rule, l, raw, ever, cutoff, now, lag, dropped, ts, a) then b else a;
  }

  /** It can be right for the one value that the rest of the bucket happens to make up for. */
  lemma RightOnlyIf(rule: Rule, l: Level, raw: Table, ever: Table, dropped: real, cutoff: real, now: real, lag: real, ts: real, row: Row)
    requires l.width > 0 && ts in raw && ts in ever && ts < cutoff
    requires GoesPast(rule, l, raw, cutoff, now, lag, dropped) && RightForAny(rule, l, raw, ever, cutoff, now, lag, dropped, ts, row)
    ensures var s, after := StampOf(ts, l.width), Folded(rule, Since(raw, cutoff), l, now, lag, true);
            s in after.rolled && after.rolled[s] == AggregateRows(rule, InBucket(ever, l.width, s)[ts := row])
  {
    assert Since(raw[ts := row], cutoff) == Since(raw, cutoff);
    hide AggregateRows, InBucket, Folded, Since, StampOf, GroupBy;
    BucketOfRow(rule, ever, l.width, ts, row);
  }

  lemma BucketOfRow(rule: Rule, ever: Table, width: nat, ts: real, row: Row)
    requires width > 0
    ensures var s, once := StampOf(ts, width), GroupBy(rule, ever[ts := row], width);
            s in once && once[s] == AggregateRows(rule, InBucket(ever, width, s)[ts := row])
  {
    hide AggregateRows, StampOf;
    assert ts in ever[ts := row];
    assert InBucket(ever[ts := row], width, StampOf(ts, width)) == InBucket(ever, width, StampOf(ts, width))[ts := row];
  }

  /** A prune is safe exactly when the rollup is right afterwards whatever values the rows held that
      no fold had seen. */
  lemma PruneIsHarmlessIff(rule: Rule, l: Level, raw: Table, ever: Table, clock: real, dropped: real, cutoff: real, now: real, lag: real)
    requires RowsOk(raw, ever, clock) && LevelOk(rule, l, raw, ever, clock, dropped) && now >= clock && lag >= 0.0
    requires GoesPast(rule, l, raw, cutoff, now, lag, dropped)
    ensures SafeFor(l, raw, cutoff) <==>
            forall ts, row :: ts in raw && !Below(l, ts) ==> RightForAny(rule, l, raw, ever, cutoff, now, lag, dropped, ts, row)
  {
    hide LevelOk, RightForAny, GoesPast;
    HasWidth(rule, l, raw, ever, clock, dropped);
    if SafeFor(l, raw, cutoff) {
      forall ts, row | ts in raw && !Below(l, ts) ensures RightForAny(rule, l, raw, ever, cutoff, now, lag, dropped, ts, row) {
        SafeIsRight(rule, l, raw, ever, clock, dropped, cutoff, now, lag, ts, row);
      }
    } else {
      var ts :| ts in raw && ts < cutoff && !Below(l, ts);
      var row := UnsafeIsWrong(rule, l, raw, ever, dropped, cutoff, now, lag, ts);
    }
  }

  lemma HasWidth(rule: Rule, l: Level, raw: Table, ever: Table, clock: real, dropped: real)
    requires LevelOk(rule, l, raw, ever, clock, dropped)
    ensures l.width > 0
  {
  }

  lemma SameLevel(rule: Rule, l: Level, kept: Table, ever: Table, clock: real, dropped: real)
    requires LevelOk(rule, l.(rolled := Since(l.rolled, dropped)), kept, ever, clock, Later(dropped, dropped))
    requires forall s :: s in l.rolled ==> s in StampsOf(ever, l.width)
    ensures LevelOk(rule, l, kept, ever, clock, dropped)
  {
    hide AggregateRows, StampsOf, InBucket, Stamp;
    SameCursor(l.(rolled := Since(l.rolled, dropped)), l, kept, ever);
    assert forall s :: Below(l, s) <==> Below(l.(rolled := Since(l.rolled, dropped)), s);
  }

  /** A fold that completes makes pruning safe up to a lag and a bucket before it. */
  lemma FoldMakesSafe(rule: Rule, raw: Table, l: Level, now: real, lag: real)
    requires l.width > 0
    ensures SafeFor(Folded(rule, raw, l, now, lag, true), raw, now - lag - l.width as real)
  {
    var w := l.width;
    var start, n := FoldStart(raw, l), FloorBucket(now - lag, w);
    FloorBelow(now - lag, w);
    if start.Some? && n <= start.value {
      ScaleInt(start.value, n, w);
      if l.upto.None? { FloorBelow(Earliest(raw), w); }
    }
  }

  lemma SafeStays(rule: Rule, lag: real, w: World, e: Event, i: nat, t: real)
    requires i < |w.levels| && SafeFor(w.levels[i], w.raw, t) && t <= w.clock && Enabled(w, e)
    ensures var after := Next(rule, lag, w, e);
            i < |after.levels| && SafeFor(after.levels[i], after.raw, t) && after.clock >= w.clock
  {
    var after := Next(rule, lag, w, e);
    var l := w.levels[i];
    if e.FoldLevel? && e.i == i {
      CursorAdvances(rule, w.raw, l, e.now, lag, e.completes);
      forall ts | ts in after.raw && ts < t ensures Below(after.levels[i], ts) { assert Below(l, ts); }
    } else {
      forall ts | ts in after.raw && ts < t ensures Below(after.levels[i], ts) { assert ts in w.raw && Below(l, ts); }
    }
  }

  lemma CursorAdvances(rule: Rule, raw: Table, l: Level, now: real, lag: real, completes: bool)
    requires l.width > 0
    ensures forall s :: Below(l, s) ==> Below(Folded(rule, raw, l, now, lag, completes), s)
  {
    if l.upto.Some? {
      ScaleInt(FloorBucket(now - lag, l.width), l.upto.value, l.width);
    }
  }

  /** A completed fold at event j keeps every later moment safe for prunes that far back. */
  lemma {:induction false} SafeAfterFold(rule: Rule, lag: real, widths: seq<nat>, events: seq<Event>, j: nat, t: real)
    requires Run(rule, lag, widths, events).Some? && lag >= 0.0
    requires j < |events| && events[j].FoldLevel? && events[j].completes && events[j].i < |widths|
    requires t <= events[j].now - lag - widths[events[j].i] as real
    ensures var w := Run(rule, lag, widths, events).value;
            events[j].i < |w.levels| && SafeFor(w.levels[events[j].i], w.raw, t) && t <= w.clock
  {
    var front, e := events[..|events| - 1], events[|events| - 1];
    var before := Run(rule, lag, widths, front).value;
    WidthsStay(rule, lag, widths, front);
    if j == |events| - 1 {
      FoldMakesSafe(rule, before.raw, before.levels[e.i], e.now, lag);
    } else {
      SafeAfterFold(rule, lag, widths, front, j, t);
      SafeStays(rule, lag, before, e, events[j].i, t);
    }
  }

  /** Each level was folded to completion no longer before the prune than its cutoff allows, or
      nothing has been written yet before the cutoff. */
  predicate FoldedBefore(lag: real, widths: seq<nat>, before: seq<Event>, cutoff: real) {
    || (forall k :: 0 <= k < |before| && before[k].Write? ==> before[k].ts >= cutoff)
    || (forall i :: 0 <= i < |widths| ==> exists j :: 0 <= j < |before| && FoldsBy(before[j], i, cutoff + lag + widths[i] as real))
  }

  predicate FoldsBy(e: Event, i: nat, t: real) { e.FoldLevel? && e.i == i && e.completes && t <= e.now }

  predicate FoldsKeepUp(lag: real, widths: seq<nat>, events: seq<Event>) {
    forall k :: 0 <= k < |events| && events[k].Prune? ==> FoldedBefore(lag, widths, events[..k], events[k].cutoff)
  }

  lemma {:induction false} RawWasWritten(rule: Rule, lag: real, widths: seq<nat>, events: seq<Event>)
    requires Run(rule, lag, widths, events).Some?
    ensures forall x :: x in Run(rule, lag, widths, events).value.raw ==>
      exists k :: 0 <= k < |events| && events[k].Write? && events[k].ts == x
  {
    if events == [] {
    } else {
      var front, e := events[..|events| - 1], events[|events| - 1];
      RawWasWritten(rule, lag, widths, front);
      var before := Run(rule, lag, widths, front).value;
      forall x | x in Run(rule, lag, widths, events).value.raw
        ensures exists k :: 0 <= k < |events| && events[k].Write? && events[k].ts == x
      {
        if x in before.raw {
          var k :| 0 <= k < |front| && front[k].Write? && front[k].ts == x;
          assert events[k] == front[k];
        } else {
          assert events[|events| - 1].Write?;
        }
      }
    }
  }

  /** Why the loop's order suffices: with a fold every few minutes and raw rows kept for days, every
      prune finds its rows folded, so the rollups agree with the one-shot fold. */
  lemma {:induction false} FoldsKeepingUpMakeRunSafe(rule: Rule, lag: real, widths: seq<nat>, events: seq<Event>)
    requires Run(rule, lag, widths, events).Some? && lag >= 0.0 && FoldsKeepUp(lag, widths, events)
    ensures SafeRun(rule, lag, widths, events)
  {
    if events == [] {
    } else {
      var front, e := events[..|events| - 1], events[|events| - 1];
      assert forall k :: 0 <= k < |front| ==> front[k] == events[k] && front[..k] == events[..k];
      FoldsKeepingUpMakeRunSafe(rule, lag, widths, front);
      var before := Run(rule, lag, widths, front).value;
      if e.Prune? {
        WidthsStay(rule, lag, widths, front);
        RawWasWritten(rule, lag, widths, front);
        assert FoldedBefore(lag, widths, front, e.cutoff);
        forall i | 0 <= i < |before.levels| ensures SafeFor(before.levels[i], before.raw, e.cutoff) {
          if j :| 0 <= j < |front| && FoldsBy(front[j], i, e.cutoff + lag + widths[i] as real) {
            SafeAfterFold(rule, lag, widths, front, j, e.cutoff);
          }
        }
      }
    }
  }

  /** A bucket with no row left to fold and none to come, that was never folded. */
  predicate Lost(l: Level, raw: Table, clock: real, s: real)
    requires l.width > 0
  {
    s !in l.rolled && s !in StampsOf(raw, l.width) && s >= 0.0 && s + l.width as real <= clock
    && forall ts :: ts in raw ==> ts >= 0.0
  }

  /** Nothing in the code makes a prune wait for the folds, and folds may fail for days. A bucket
      whose rows are all pruned before it is first folded never appears in the rollup, whatever
      happens afterwards. */
  lemma PrunedTooSoon(rule: Rule, w: World, i: nat, cutoff: real, cs: seq<real>, ts: real)
    requires Enabled(w, Prune(cutoff, cs)) && i < |w.levels| && w.levels[i].width > 0
    requires ts in w.raw && forall x :: x in w.raw ==> x >= 0.0
    requires StampOf(ts, w.levels[i].width) !in w.levels[i].rolled
    requires StampOf(ts, w.levels[i].width) + w.levels[i].width as real <= cutoff <= w.clock
    ensures var after := Next(rule, 0.0, w, Prune(cutoff, cs));
            Lost(after.levels[i], after.raw, after.clock, StampOf(ts, w.levels[i].width))
  {
    var l := w.levels[i];
    var s := StampOf(ts, l.width);
    AlignedSide(ts, l.width, 0);
    forall x | x in w.raw && StampOf(x, l.width) == s ensures x < cutoff { BucketBounds(x, l.width); }
  }

  lemma LostForever(rule: Rule, lag: real, w: World, e: Event, i: nat, s: real)
    requires i < |w.levels| && w.levels[i].width > 0 && Enabled(w, e)
    requires Lost(w.levels[i], w.raw, w.clock, s)
    ensures var after := Next(rule, lag, w, e);
            i < |after.levels| && after.levels[i].width > 0 && Lost(after.levels[i], after.raw, after.clock, s)
  {
    var l := w.levels[i];
    if e.Write? {
      BucketBounds(e.ts, l.width);
    } else if e.FoldLevel? && e.i == i && FoldStart(w.raw, l).Some? {
      var rows := Range(w.raw, Stamp(FoldStart(w.raw, l).value, l.width), Stamp(FloorBucket(e.now - lag, l.width), l.width));
      assert s !in GroupBy(rule, rows, l.width);
    }
  }

  function TooSoon(row: Row): seq<Event> {
    [Write(10.0, row), Write(700.0, row), Prune(400.0, [0.0]), FoldLevel(0, 1000.0, true)]
  }

  lemma TooSoonRuns(rule: Rule, row: Row)
    ensures Run(rule, 16.0, [300], TooSoon(row)) ==
            Some(World(map[700.0 := row], [Folded(rule, map[700.0 := row], Level(300, None, map[]), 1000.0, 16.0, true)],
                       map[10.0 := row, 700.0 := row], 1000.0, [0.0]))
  {
    hide Folded;
    var e := TooSoon(row);
    assert e[..3][..2] == e[..2] && e[..2][..1] == e[..1] && e[..1] == [Write(10.0, row)];
    var blank := Level(300, None, map[]);
    assert Begin([300]) == World(map[], [blank], map[], 0.0, [0.0]);
    assert Run(rule, 16.0, [300], e[..1]) == Some(World(map[10.0 := row], [blank], map[10.0 := row], 10.0, [0.0]));
    var both := map[10.0 := row, 700.0 := row];
    assert Run(rule, 16.0, [300], e[..2]) == Some(World(both, [blank], both, 700.0, [0.0]));
    assert Since(both, 400.0) == map[700.0 := row];
    var none: Table := map[];
    assert Since(none, 0.0) == none;
    var pruned := Next(rule, 16.0, World(both, [blank], both, 700.0, [0.0]), e[2]);
    assert pruned.levels == [blank] && pruned.dropped == [0.0] && pruned.raw == map[700.0 := row];
    assert e[..3][2] == e[2];
    assert Run(rule, 16.0, [300], e[..3]) == Some(pruned);
    assert Run(rule, 16.0, [300], e[..3]) == Some(World(map[700.0 := row], [blank], both, 700.0, [0.0]));
    assert Next(rule, 16.0, pruned, e[3]).levels == [Folded(rule, map[700.0 := row], blank, 1000.0, 16.0, true)];
  }

  lemma TooSoonFold(rule: Rule, row: Row)
    ensures var l := Folded(rule, map[700.0 := row], Level(300, None, map[]), 1000.0, 16.0, true);
            l.upto == Some(3) && 0.0 !in l.rolled && l.width == 300
  {
    hide AggregateRows, StampOf;
    FloorBelow(984.0, 300);
    FloorBelow(700.0, 300);
    BucketBounds(700.0, 300);
    var raw: Table := map[700.0 := row];
    assert 700.0 in raw;
    assert Earliest(raw) == 700.0;
    assert FloorBucket(700.0, 300) == 2 && FloorBucket(984.0, 300) == 3;
  }

  /** Four events on an empty database after which a retained bucket is missing. */
  lemma UnsafePruneLosesABucket(rule: Rule, row: Row)
    ensures var w := Run(rule, 16.0, [300], TooSoon(row));
            && w.Some? && |w.value.levels| == |w.value.dropped| == 1
            && !AgreesWith(w.value.levels[0], GroupBy(rule, w.value.ever, 300), w.value.dropped[0])
  {
    hide Folded, AggregateRows, Run;
    TooSoonRuns(rule, row);
    TooSoonFold(rule, row);
    BucketBounds(10.0, 300);
    var w := Run(rule, 16.0, [300], TooSoon(row)).value;
    assert StampOf(10.0, 300) == 0.0 && 10.0 in w.ever;
    assert 0.0 in GroupBy(rule, w.ever, 300);
  }
}
