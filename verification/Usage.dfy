/** The usage card (app/inferenceinquire/usage.py): tokens, requests and energy in buckets aligned to
    the reader's local time. */
module Usage {

  import opened Basics
  import opened Aggregates

  /** The window asked for, the buckets it is cut into, and the longest step that counts. */
  datatype Span = Span(since: real, until: real, bucket: real, tz: real, cap: real) {
    predicate Sound() { bucket > 0.0 && cap > 0.0 }

    predicate Covers(ts: real) { since <= ts < until }
  }

  // ----------------------------------------------------------------- buckets --

  function Number(p: Span, ts: real): int
    requires p.Sound()
  {
    ((ts + p.tz) / p.bucket).Floor
  }

  function Edge(p: Span, m: int): real { m as real * p.bucket - p.tz }

  /** The start of the bucket a timestamp falls in. */
  function KeyOf(p: Span, ts: real): real
    requires p.Sound()
  {
    Edge(p, Number(p, ts))
  }

  /** The start of the j-th bucket of the window. */
  function Start(p: Span, j: int): real
    requires p.Sound()
  {
    Edge(p, Number(p, p.since) + j)
  }

  function Starts(p: Span, n: nat): set<real>
    requires p.Sound()
  {
    set j | 0 <= j < n :: Start(p, j)
  }

  /** n buckets reach the end of the window, and the last of them starts inside it. */
  predicate Tiles(p: Span, n: nat)
    requires p.Sound()
  {
    Start(p, n) >= p.until && (n > 0 ==> Start(p, n - 1) < p.until)
  }

  lemma KeyBounds(p: Span, ts: real)
    requires p.Sound()
    ensures KeyOf(p, ts) <= ts < KeyOf(p, ts) + p.bucket
  {
    var x := ts + p.tz;
    var q := x / p.bucket;
    FloorBounds(q, q.Floor as real, p.bucket, x, q.Floor as real * p.bucket);
  }

  lemma EdgesAscend(p: Span, m: int, n: int)
    requires p.Sound()
    ensures m < n <==> Edge(p, m) < Edge(p, n)
    ensures Edge(p, m + 1) == Edge(p, m) + p.bucket
  {
    var a, b := m as real, n as real;
    assert m < n <==> a < b;
    Scale(a, b, p.bucket);
    Scale(b, a, p.bucket);
    NextEdge(p, m);
  }

  lemma NextEdge(p: Span, m: int)
    ensures Edge(p, m + 1) == Edge(p, m) + p.bucket
  {
    TimesSum(m as real, 1.0, p.bucket);
    assert (m + 1) as real == m as real + 1.0;
  }

  lemma EdgeIsKey(p: Span, m: int)
    requires p.Sound()
    ensures KeyOf(p, Edge(p, m)) == Edge(p, m)
  {
    Exact(m, p.bucket);
    assert Edge(p, m) + p.tz == m as real * p.bucket;
  }

  lemma Exact(m: int, w: real)
    requires w > 0.0
    ensures (m as real * w / w).Floor == m
  {
    assert m as real * w / w == m as real;
  }

  /** A moment on the reader's clock. */
  function Local(p: Span, ts: real): real { ts + p.tz }

  /** Buckets are the reader's: each starts at a whole number of widths on his clock, and the one a
      moment falls in is the last to start by then. */
  lemma BucketsAreLocal(p: Span, ts: real)
    requires p.Sound()
    ensures Local(p, KeyOf(p, ts)) == Number(p, ts) as real * p.bucket
    ensures Local(p, KeyOf(p, ts)) <= Local(p, ts) < Local(p, KeyOf(p, ts)) + p.bucket
  {
    KeyBounds(p, ts);
  }

  /** Every moment of the window lies in one of the buckets that are returned. */
  lemma KeyIsStart(p: Span, n: nat, ts: real)
    requires p.Sound() && Tiles(p, n) && p.Covers(ts)
    ensures KeyOf(p, ts) in Starts(p, n)
    ensures p.since - p.bucket < KeyOf(p, ts) < p.until
  {
    hide Edge, Number;
    var first, m := Number(p, p.since), Number(p, ts);
    KeyBounds(p, ts);
    KeyBounds(p, p.since);
    EdgesAscend(p, m, first + n);
    EdgesAscend(p, first, m + 1);
    assert first <= m < first + n;
    assert KeyOf(p, ts) == Start(p, m - first);
  }

  /** It lies in that one alone: in bucket j exactly from the start of it to the start of the next. */
  lemma InBucketIff(p: Span, ts: real, j: int)
    requires p.Sound()
    ensures KeyOf(p, ts) == Start(p, j) <==> Start(p, j) <= ts < Start(p, j + 1)
  {
    hide Edge, Number;
    var m, b := Number(p, ts), Number(p, p.since) + j;
    KeyBounds(p, ts);
    EdgesAscend(p, m, b);
    EdgesAscend(p, b, m);
    EdgesAscend(p, m, b + 1);
    EdgesAscend(p, b, m + 1);
    assert Start(p, j + 1) == Edge(p, b + 1);
  }

  // ------------------------------------------------------------------ tokens --

  datatype Tokens = Tokens(genWl: int, genProbe: int, promptWl: int, promptProbe: int, reqWl: int, reqProbe: int)

  const NONE := Tokens(0, 0, 0, 0, 0, 0)

  function Plus(a: Tokens, b: Tokens): Tokens {
    Tokens(a.genWl + b.genWl, a.genProbe + b.genProbe, a.promptWl + b.promptWl, a.promptProbe + b.promptProbe,
           a.reqWl + b.reqWl, a.reqProbe + b.reqProbe)
  }

  /** A row of the request log, or of its hourly rollup. */
  datatype Entry =
    | Request(ts: real, gen: Option<int>, prompt: Option<int>, probe: bool)
    | Hour(ts: real, nWl: Option<int>, nProbe: Option<int>, wlGen: Option<int>, probeGen: Option<int>,
           wlPrompt: Option<int>, probePrompt: Option<int>)

  function Worth(e: Entry): Tokens {
    match e
    case Request(_, gen, prompt, probe) =>
      if probe then Tokens(0, gen.Or(0), 0, prompt.Or(0), 0, 1) else Tokens(gen.Or(0), 0, prompt.Or(0), 0, 1, 0)
    case Hour(_, nWl, nProbe, gWl, gProbe, pWl, pProbe) =>
      Tokens(gWl.Or(0), gProbe.Or(0), pWl.Or(0), pProbe.Or(0), nWl.Or(0), nProbe.Or(0))
  }

  /** What the entries between two moments are worth. */
  function TokensIn(log: seq<Entry>, lo: real, hi: real): Tokens {
    if log == [] then NONE
    else
      var before, e := TokensIn(log[..|log| - 1], lo, hi), log[|log| - 1];
      if lo <= e.ts < hi then Plus(before, Worth(e)) else before
  }

  /** The tokens generated between two moments, by the probes or by everyone else; NULL is 0. */
  function Generated(log: seq<Entry>, probes: bool, lo: real, hi: real): int {
    if log == [] then 0
    else
      var e := log[|log| - 1];
      Generated(log[..|log| - 1], probes, lo, hi) +
      if !(lo <= e.ts < hi) then 0
      else match e
        case Request(_, gen, _, probe) => if probe == probes then gen.Or(0) else 0
        case Hour(_, _, _, wlGen, probeGen, _, _) => if probes then probeGen.Or(0) else wlGen.Or(0)
  }

  /** The prompt tokens, likewise. */
  function Prompted(log: seq<Entry>, probes: bool, lo: real, hi: real): int {
    if log == [] then 0
    else
      var e := log[|log| - 1];
      Prompted(log[..|log| - 1], probes, lo, hi) +
      if !(lo <= e.ts < hi) then 0
      else match e
        case Request(_, _, prompt, probe) => if probe == probes then prompt.Or(0) else 0
        case Hour(_, _, _, _, _, wlPrompt, probePrompt) => if probes then probePrompt.Or(0) else wlPrompt.Or(0)
  }

  /** The requests, likewise: each one, or as many as an hour had. */
  function Requested(log: seq<Entry>, probes: bool, lo: real, hi: real): int {
    if log == [] then 0
    else
      var e := log[|log| - 1];
      Requested(log[..|log| - 1], probes, lo, hi) +
      if !(lo <= e.ts < hi) then 0
      else match e
        case Request(_, _, _, probe) => if probe == probes then 1 else 0
        case Hour(_, nWl, nProbe, _, _, _, _) => if probes then nProbe.Or(0) else nWl.Or(0)
  }

  /** All six numbers are what the log between two moments says, probes and workload apart. */
  predicate TokensAre(t: Tokens, log: seq<Entry>, lo: real, hi: real) {
    && t.genWl == Generated(log, false, lo, hi) && t.genProbe == Generated(log, true, lo, hi)
    && t.promptWl == Prompted(log, false, lo, hi) && t.promptProbe == Prompted(log, true, lo, hi)
    && t.reqWl == Requested(log, false, lo, hi) && t.reqProbe == Requested(log, true, lo, hi)
  }

  /** The main result on the split: what is summed up is what the log says of the probes and of
      everyone else. */
  lemma {:induction false} TokensInAre(log: seq<Entry>, lo: real, hi: real)
    ensures TokensAre(TokensIn(log, lo, hi), log, lo, hi)
    decreases |log|
  {
    if log == [] {
    } else {
      TokensInAre(log[..|log| - 1], lo, hi);
    }
  }

  lemma {:induction false} TokensSplit(log: seq<Entry>, a: real, b: real, c: real)
    requires a <= b <= c
    ensures TokensIn(log, a, c) == Plus(TokensIn(log, a, b), TokensIn(log, b, c))
  {
    if log == [] {
    } else {
      TokensSplit(log[..|log| - 1], a, b, c);
    }
  }

  // ------------------------------------------------------------------ energy --

  lemma {:induction false} GreatestExists(s: set<real>)
    requires s != {}
    ensures exists x :: x in s && forall y :: y in s ==> y <= x
    decreases |s|
  {
    var k := AnyOf(s);
    var rest := s - {k};
    assert forall y :: y in s ==> y == k || y in rest;
    if rest == {} {
      assert k in s && forall y :: y in s ==> y <= k;
    } else {
      GreatestExists(rest);
      var x :| x in rest && forall y :: y in rest ==> y <= x;
      var z := if x >= k then x else k;
      assert z in s && forall y :: y in s ==> y <= z;
    }
  }

  function Latest(s: set<real>): (x: real)
    requires s != {}
    ensures x in s && forall y :: y in s ==> y <= x
  {
    GreatestExists(s);
    var x :| x in s && forall y :: y in s ==> y <= x;
    x
  }

  function Before(stamps: set<real>, lo: real, ts: real): set<real> { set s | s in stamps && lo <= s < ts }

  /** ts - LAG(ts) over the rows from lo on. */
  function Lag(stamps: set<real>, lo: real, ts: real): (dt: Option<real>)
    ensures dt.Some? ==> 0.0 < dt.value <= ts - lo && ts - dt.value in stamps
    ensures forall s :: s in stamps && lo <= s < ts ==> dt.Some? && dt.value <= ts - s
  {
    var earlier := Before(stamps, lo, ts);
    if earlier == {} then
      assert forall s :: s in stamps && lo <= s < ts ==> s in earlier;
      None
    else
      assert forall s :: s in stamps && lo <= s < ts ==> s in earlier;
      assert ts - (ts - Latest(earlier)) == Latest(earlier);
      Some(ts - Latest(earlier))
  }

  function Shorter(a: real, b: real): real { if b < a then b else a }

  /** The seconds a row stands for: the time since the row before it, up to the cap. */
  function StepAt(p: Span, stamps: set<real>, ts: real): (dt: Option<real>)
    ensures dt.Some? ==> p.Covers(ts) && dt.value <= p.cap && (p.cap >= 0.0 ==> dt.value >= 0.0)
  {
    if p.Covers(ts) && Lag(stamps, p.since - p.cap, ts).Some?
    then Some(Shorter(Lag(stamps, p.since - p.cap, ts).value, p.cap))
    else None
  }

  function Steps(p: Span, at: set<real>, stamps: set<real>): Column {
    map ts | ts in at && StepAt(p, stamps, ts).Some? :: StepAt(p, stamps, ts)
  }

  function Wh(watts: real, seconds: real): real { watts * seconds / 3600.0 }

  /** The watt-hours of a row. */
  function WhAt(p: Span, watts: map<real, real>, stamps: set<real>, ts: real): (wh: Option<real>)
    requires ts in watts
    ensures wh.Some? ==> p.Covers(ts)
  {
    var dt := StepAt(p, stamps, ts);
    if dt.Some? then Some(Wh(watts[ts], dt.value)) else None
  }

  function Energy(p: Span, watts: map<real, real>, stamps: set<real>): Column {
    map ts | ts in watts && WhAt(p, watts, stamps, ts).Some? :: WhAt(p, watts, stamps, ts)
  }

  function Sum(m: Column): real { Fold(Rule.Sum, m).Or(0.0) }

  /** The rows of one bucket. */
  function InKey(p: Span, m: Column, key: real): Column
    requires p.Sound()
  {
    map ts | ts in m && KeyOf(p, ts) == key :: m[ts]
  }

  /** Between two rows with none between them lies one step: the time between, or the cap. The first
      row of all stands for nothing. */
  lemma StepIsGapOrCap(p: Span, stamps: set<real>, ts: real)
    requires p.Covers(ts)
    ensures forall x :: x in stamps && p.since - p.cap <= x < ts && (forall s :: s in stamps ==> !(x < s < ts)) ==>
      StepAt(p, stamps, ts) == Some(if ts - x <= p.cap then ts - x else p.cap)
    ensures (forall x :: x in stamps ==> !(p.since - p.cap <= x < ts)) ==> StepAt(p, stamps, ts) == None
  {
    hide Lag;
    var dt := Lag(stamps, p.since - p.cap, ts);
    forall x | x in stamps && p.since - p.cap <= x < ts && (forall s :: s in stamps ==> !(x < s < ts)) ensures dt == Some(ts - x) {
      assert ts - dt.value in stamps;
    }
  }

  /** A watt for an hour is a watt-hour; twice the draw, or twice as long, is twice the energy. */
  lemma WattHours(a: real, b: real, seconds: real)
    ensures Wh(a, 3600.0) == a
    ensures Wh(a + b, seconds) == Wh(a, seconds) + Wh(b, seconds) && Wh(seconds, a + b) == Wh(seconds, a) + Wh(seconds, b)
    ensures Wh(a, 0.0) == 0.0
  {
    TimesSum(a, b, seconds);
  }

  /** Under a constant draw the energy is that draw over all the seconds that count. */
  lemma {:induction false} ConstantDraw(wh: Column, seconds: Column, w: real)
    requires forall ts :: ts in wh <==> ts in seconds
    requires forall ts :: ts in wh ==> seconds[ts].Some? && wh[ts] == Some(Wh(w, seconds[ts].value))
    ensures Sum(wh) == Wh(w, Sum(seconds))
    decreases |wh|
  {
    hide Fold, Wh;
    WattHours(w, 0.0, 0.0);
    if wh == map[] {
      assert seconds == map[] by { assert forall ts :: ts !in seconds; }
      EmptyFold();
    } else {
      var x := Least(wh.Keys);
      ConstantDraw(wh - {x}, seconds - {x}, w);
      FoldAny(Rule.Sum, wh, x);
      FoldAny(Rule.Sum, seconds, x);
      WattHours(seconds[x].value, Sum(seconds - {x}), w);
    }
  }

  // --------------------------------------------------------- split in two --

  function From(stamps: set<real>, b: real, c: real): set<real> { set s | s in stamps && b <= s < c }

  /** The energy that the first row from b on brings in over [a, c) and not over [b, c): one capped
      step, when the row before it is recent enough for the one window and not for the other. */
  function Overlap(watts: map<real, real>, stamps: set<real>, p: Span, b: real): real {
    if From(stamps, b, p.until) == {} then 0.0
    else
      var first := Least(From(stamps, b, p.until));
      if first in watts && Overlaps(stamps, p, b, first) then Wh(watts[first], p.cap) else 0.0
  }

  /** The row before lies in [a - cap, b - cap). */
  predicate Overlaps(stamps: set<real>, p: Span, b: real, first: real) {
    var before := Before(stamps, p.since - p.cap, first);
    before != {} && Latest(before) < b - p.cap
  }

  lemma EarlierHalf(w: map<real, real>, stamps: set<real>, p: Span, b: real, early: set<real>)
    requires p.since <= b <= p.until && forall ts :: ts in early <==> ts in Energy(p, w, stamps) && ts < b
    ensures Energy(p.(until := b), w, stamps) == Part(Energy(p, w, stamps), early)
  {
    hide Lag, Shorter, Wh;
    forall ts | ts in w ensures WhAt(p.(until := b), w, stamps, ts) == if ts < b then WhAt(p, w, stamps, ts) else None {
      assert StepAt(p.(until := b), stamps, ts) == if ts < b then StepAt(p, stamps, ts) else None;
    }
  }

  lemma LagFromLater(stamps: set<real>, lo: real, mid: real, ts: real)
    requires lo <= mid
    ensures Lag(stamps, mid, ts) == if Lag(stamps, lo, ts).Some? && ts - Lag(stamps, lo, ts).value >= mid
                                    then Lag(stamps, lo, ts) else None
  {
    hide Lag;
    var l, m := Lag(stamps, lo, ts), Lag(stamps, mid, ts);
    if m.Some? { assert ts - m.value in stamps; }
    if l.Some? { assert ts - l.value in stamps; }
  }

  lemma LaterStep(stamps: set<real>, p: Span, b: real, ts: real)
    requires p.since <= b && p.cap >= 0.0 && ts in stamps && b <= ts < p.until
    ensures ts in From(stamps, b, p.until)
    ensures if ts == Least(From(stamps, b, p.until)) && Overlaps(stamps, p, b, ts)
            then StepAt(p, stamps, ts) == Some(p.cap) && StepAt(p.(since := b), stamps, ts) == None
            else StepAt(p, stamps, ts) == StepAt(p.(since := b), stamps, ts)
  {
    assert ts in From(stamps, b, p.until);
    LagFromLater(stamps, p.since - p.cap, b - p.cap, ts);
    LagIsLatest(stamps, p.since - p.cap, ts);
    hide Lag, Latest, Before;
    var l := Lag(stamps, p.since - p.cap, ts);
    var first := Least(From(stamps, b, p.until));
    if first < ts {
      assert first in stamps;
    }
  }

  /** A row from b on counts the same in both windows, unless it is the one that overlaps. */
  lemma LaterRow(w: map<real, real>, stamps: set<real>, p: Span, b: real, ts: real)
    requires p.since <= b && p.cap >= 0.0 && ts in w && ts in stamps && b <= ts < p.until
    ensures ts in From(stamps, b, p.until)
    ensures if ts == Least(From(stamps, b, p.until)) && Overlaps(stamps, p, b, ts)
            then WhAt(p, w, stamps, ts) == Some(Wh(w[ts], p.cap)) && WhAt(p.(since := b), w, stamps, ts) == None
            else WhAt(p, w, stamps, ts) == WhAt(p.(since := b), w, stamps, ts)
  {
    LaterStep(stamps, p, b, ts);
    hide StepAt, Overlaps, Least, Wh;
  }

  lemma LagIsLatest(stamps: set<real>, lo: real, ts: real)
    ensures var earlier := Before(stamps, lo, ts);
            Lag(stamps, lo, ts) == if earlier == {} then None else Some(ts - Latest(earlier))
  {
  }

  lemma LaterHalf(w: map<real, real>, stamps: set<real>, p: Span, b: real, early: set<real>)
    requires p.since <= b <= p.until && p.cap >= 0.0 && w.Keys <= stamps
    requires forall ts :: ts in early <==> ts in Energy(p, w, stamps) && ts < b
    ensures var later := Energy(p, w, stamps) - early;
            var part := Energy(p.(since := b), w, stamps);
            if From(stamps, b, p.until) == {} then later == part
            else
              var first := Least(From(stamps, b, p.until));
              if first in w && Overlaps(stamps, p, b, first)
              then first in later && later[first] == Some(Wh(w[first], p.cap)) && later - {first} == part
              else later == part
  {
    hide WhAt, Least, Lag, Latest, Wh;
    forall ts | ts in w && b <= ts < p.until
      ensures ts in From(stamps, b, p.until)
      ensures if ts == Least(From(stamps, b, p.until)) && Overlaps(stamps, p, b, ts)
        then WhAt(p, w, stamps, ts) == Some(Wh(w[ts], p.cap)) && WhAt(p.(since := b), w, stamps, ts) == None
        else WhAt(p, w, stamps, ts) == WhAt(p.(since := b), w, stamps, ts)
    {
      LaterRow(w, stamps, p, b, ts);
    }
  }

  /** The main result on energy: cutting a window in two loses nothing but one capped step, and that
      one only when the row before the cut is too old for the second window's own look-back. */
  lemma EnergySplits(w: map<real, real>, stamps: set<real>, p: Span, b: real)
    requires p.since <= b <= p.until && p.cap >= 0.0 && w.Keys <= stamps
    ensures Sum(Energy(p, w, stamps)) == Sum(Energy(p.(until := b), w, stamps)) + Sum(Energy(p.(since := b), w, stamps))
                                         + Overlap(w, stamps, p, b)
  {
    hide Energy, Overlaps, Least, Fold, Wh;
    var whole := Energy(p, w, stamps);
    var early := set ts | ts in whole && ts < b;
    EarlierHalf(w, stamps, p, b, early);
    LaterHalf(w, stamps, p, b, early);
    FoldSplit(Rule.Sum, whole, early);
    var first := From(stamps, b, p.until);
    if first != {} && Least(first) in w && Overlaps(stamps, p, b, Least(first)) {
      FoldAny(Rule.Sum, whole - early, Least(first));
    }
  }

  // ------------------------------------------------------------------ bounds --

  /** The part of a column of amounts that are not negative is at most the whole of it. */
  lemma PartAtMostWhole(m: Column, keys: set<real>)
    requires forall ts :: ts in m ==> m[ts].Some? && m[ts].value >= 0.0
    ensures Sum(Part(m, keys)) <= Sum(m)
  {
    FoldSplit(Rule.Sum, m, keys);
    NotNegativeSum(m - keys);
  }

  lemma {:induction false} NotNegativeSum(m: Column)
    requires forall ts :: ts in m ==> m[ts].Some? && m[ts].value >= 0.0
    ensures Sum(m) >= 0.0
    decreases |m|
  {
    if m == map[] {
    } else {
      var x := Least(m.Keys);
      NotNegativeSum(m - {x});
      FoldAny(Rule.Sum, m, x);
    }
  }

  lemma StepSinceRow(p: Span, stamps: set<real>, y: real, x: real)
    requires y in stamps && p.since <= y < x && p.cap >= 0.0 && StepAt(p, stamps, x).Some?
    ensures StepAt(p, stamps, x).value <= x - y
  {
    hide Lag;
  }

  /** Steps that end in [lo, hi] cover at most that much time and one cap. */
  lemma {:induction false} StepsFit(p: Span, m: Column, at: set<real>, stamps: set<real>, lo: real, hi: real)
    requires lo <= hi && at <= stamps && p.since <= lo && p.cap >= 0.0
    requires forall ts :: ts in m ==> ts in at && lo <= ts <= hi && StepAt(p, stamps, ts).Some? && m[ts] == StepAt(p, stamps, ts)
    ensures Sum(m) <= hi - lo + p.cap
    decreases |m|
  {
    hide StepAt, Fold;
    if m == map[] {
      EmptyFold();
    } else {
      var x := Latest(m.Keys);
      FoldAny(Rule.Sum, m, x);
      var rest := m - {x};
      if rest == map[] {
        EmptyFold();
      } else {
        var y := Latest(rest.Keys);
        StepsFit(p, rest, at, stamps, lo, y);
        StepSinceRow(p, stamps, y, x);
      }
    }
  }

  /** covered_s is at most the window and one cap. */
  lemma CoveredAtMost(p: Span, at: set<real>, stamps: set<real>)
    requires at <= stamps && p.since <= p.until && p.cap >= 0.0
    ensures Sum(Steps(p, at, stamps)) <= p.until - p.since + p.cap
  {
    hide StepAt;
    StepsFit(p, Steps(p, at, stamps), at, stamps, p.since, p.until);
  }

  /** A hole of any length, with no row in [x, y), adds at most one cap to what is left. */
  lemma HoleAddsOneCap(p: Span, at: set<real>, stamps: set<real>, x: real, y: real)
    requires at <= stamps && p.since <= x <= y <= p.until && p.cap >= 0.0
    requires forall ts :: ts in at ==> ts < x || ts >= y
    ensures Sum(Steps(p, at, stamps)) <= (x - p.since) + (p.until - y) + 2.0 * p.cap
  {
    hide StepAt;
    var m := Steps(p, at, stamps);
    var early := set ts | ts in m && ts < x;
    FoldSplit(Rule.Sum, m, early);
    StepsFit(p, Part(m, early), at, stamps, p.since, x);
    StepsFit(p, m - early, at, stamps, y, p.until);
  }

  // ----------------------------------------------------------------- partition --

  function BucketSums(p: Span, m: Column, n: nat): seq<Option<real>>
    requires p.Sound()
  {
    seq(n, j requires 0 <= j < n => Fold(Rule.Sum, InKey(p, m, Start(p, j))))
  }

  /** Every watt-hour lands in exactly one bucket: the buckets add up to the whole. */
  lemma EnergyInBuckets(p: Span, m: Column, n: nat)
    requires p.Sound() && Tiles(p, n) && forall ts :: ts in m ==> p.Covers(ts)
    ensures FoldSeq(Rule.Sum, BucketSums(p, m, n)) == Fold(Rule.Sum, m)
  {
    FirstBuckets(p, m, n, n);
    forall ts | ts in m ensures ts < Start(p, n) {}
    assert (map ts | ts in m && ts < Start(p, n) :: m[ts]) == m;
  }

  lemma {:induction false} FirstBuckets(p: Span, m: Column, n: nat, i: nat)
    requires p.Sound() && Tiles(p, n) && i <= n && forall ts :: ts in m ==> p.Covers(ts)
    ensures FoldSeq(Rule.Sum, BucketSums(p, m, i)) == Fold(Rule.Sum, map ts | ts in m && ts < Start(p, i) :: m[ts])
  {
    hide Fold, Edge, Number, KeyOf, Start, Tiles;
    var whole := map ts | ts in m && ts < Start(p, i) :: m[ts];
    if i == 0 {
      assert whole == map[] by { NothingBeforeStart(p, m); }
      EmptyFold();
    } else {
      FirstBuckets(p, m, n, i - 1);
      var before := map ts | ts in m && ts < Start(p, i - 1) :: m[ts];
      StartsGrow(p, i - 1);
      assert BucketSums(p, m, i)[..i - 1] == BucketSums(p, m, i - 1);
      FoldSplit(Rule.Sum, whole, before.Keys);
      assert Part(whole, before.Keys) == before;
      forall ts | ts in m ensures KeyOf(p, ts) == Start(p, i - 1) <==> Start(p, i - 1) <= ts < Start(p, i) {
        InBucketIff(p, ts, i - 1);
      }
      assert whole - before.Keys == InKey(p, m, Start(p, i - 1));
    }
  }

  lemma EmptyFold()
    ensures FoldSeq(Rule.Sum, []) == Fold(Rule.Sum, map[]) == None
  {
  }

  lemma StartsGrow(p: Span, j: int)
    requires p.Sound()
    ensures Start(p, j + 1) == Start(p, j) + p.bucket
  {
    hide Edge, Number;
    EdgesAscend(p, Number(p, p.since) + j, 0);
    assert Start(p, j + 1) == Edge(p, Number(p, p.since) + j + 1);
  }

  lemma NothingBeforeStart(p: Span, m: Column)
    requires p.Sound() && forall ts :: ts in m ==> p.Covers(ts)
    ensures forall ts :: ts in m ==> ts >= Start(p, 0)
  {
    KeyBounds(p, p.since);
  }

  /** A bucket's part of the window. */
  function Clip(p: Span, x: real): real { if x < p.since || p.until < p.since then p.since else if x > p.until then p.until else x }

  function BucketTokens(p: Span, log: seq<Entry>, j: int): Tokens
    requires p.Sound()
  {
    TokensIn(log, Clip(p, Start(p, j)), Clip(p, Start(p, j + 1)))
  }

  function Total(ts: seq<Tokens>): Tokens {
    if ts == [] then NONE else Plus(Total(ts[..|ts| - 1]), ts[|ts| - 1])
  }

  lemma {:induction false} NoTokens(log: seq<Entry>, lo: real, hi: real)
    requires hi <= lo
    ensures TokensIn(log, lo, hi) == NONE
  {
    if log == [] {
    } else {
      NoTokens(log[..|log| - 1], lo, hi);
    }
  }

  lemma {:induction false} FirstTokens(p: Span, log: seq<Entry>, i: nat)
    requires p.Sound()
    ensures Total(seq(i, j requires 0 <= j < i => BucketTokens(p, log, j))) == TokensIn(log, p.since, Clip(p, Start(p, i)))
  {
    hide Start, Plus, TokensIn;
    var whole := seq(i, j requires 0 <= j < i => BucketTokens(p, log, j));
    if i == 0 {
      assert Start(p, 0) <= p.since by { KeyBounds(p, p.since); StartIsKey(p); }
      NoTokens(log, p.since, Clip(p, Start(p, 0)));
    } else {
      FirstTokens(p, log, i - 1);
      StartsGrow(p, i - 1);
      assert whole[..i - 1] == seq(i - 1, j requires 0 <= j < i - 1 => BucketTokens(p, log, j));
      TokensSplit(log, p.since, Clip(p, Start(p, i - 1)), Clip(p, Start(p, i)));
    }
  }

  lemma StartIsKey(p: Span)
    requires p.Sound()
    ensures Start(p, 0) == KeyOf(p, p.since)
  {
  }

  /** Every token and request of the window lands in exactly one bucket. */
  lemma TokensInBuckets(p: Span, log: seq<Entry>, n: nat)
    requires p.Sound() && Tiles(p, n)
    ensures Total(seq(n, j requires 0 <= j < n => BucketTokens(p, log, j))) == TokensIn(log, p.since, p.until)
  {
    FirstTokens(p, log, n);
    if p.until < p.since {
      NoTokens(log, p.since, p.until);
      NoTokens(log, p.since, p.since);
    } else if Start(p, n) < p.since {
      NoTokens(log, p.since, p.until);
    }
  }

  // -------------------------------------------------------------- the report --

  datatype Bucket = Bucket(ts: real, tokens: Tokens, gpuWh: real, hostWh: Option<real>)

  function Empty(ts: real): Bucket { Bucket(ts, NONE, 0.0, None) }

  /** The zero buckets of the window. */
  method Prefill(p: Span) returns (buckets: map<real, Bucket>, ghost n: nat)
    requires p.Sound()
    ensures Tiles(p, n) && buckets.Keys == Starts(p, n)
    ensures forall k :: k in buckets ==> buckets[k] == Empty(k)
  {
    var k := KeyOf(p, p.since);
    buckets, n := map[], 0;
    while k < p.until
      invariant k == Start(p, n) && buckets.Keys == Starts(p, n)
      invariant n > 0 ==> Start(p, n - 1) < p.until
      invariant forall k :: k in buckets ==> buckets[k] == Empty(k)
      decreases ((p.until - k) / p.bucket).Floor + 1
    {
      EdgeIsKey(p, Number(p, p.since) + n);
      StartsGrow(p, n);
      OneLess(p.until - k, p.bucket);
      buckets := buckets[KeyOf(p, k) := Empty(KeyOf(p, k))];
      assert Starts(p, n + 1) == Starts(p, n) + {Start(p, n)};
      k := k + p.bucket;
      n := n + 1;
    }
  }

  lemma OneLess(x: real, w: real)
    requires w > 0.0 && x > 0.0
    ensures ((x - w) / w).Floor == (x / w).Floor - 1 && (x / w).Floor >= 0
  {
    var q := x / w;
    Undo(x, w);
    TimesSum(q, -1.0, w);
    assert q + -1.0 == q - 1.0 && (q - 1.0) * w == x - w;
    Undo(x - w, w);
    SameQuotient(q - 1.0, (x - w) / w, w);
  }

  lemma Undo(x: real, w: real)
    requires w > 0.0
    ensures x / w * w == x
    ensures x > 0.0 ==> x / w > 0.0
  {
  }

  lemma SameQuotient(a: real, b: real, w: real)
    requires w > 0.0 && a * w == b * w
    ensures a == b
  {
    Scale(a, b, w);
    Scale(b, a, w);
  }

  lemma TokensOfBucket(p: Span, n: nat, j: nat, e: Entry)
    requires p.Sound() && Tiles(p, n) && j < n
    ensures p.Covers(e.ts) && KeyOf(p, e.ts) == Start(p, j) <==>
            Clip(p, Start(p, j)) <= e.ts < Clip(p, Start(p, j + 1))
  {
    StartsGrow(p, j);
    if p.Covers(e.ts) {
      InBucketIff(p, e.ts, j);
    }
  }

  /** A bucket's numbers are those of the log over its part of the window. */
  predicate BucketIs(p: Span, log: seq<Entry>, j: int, tokens: Tokens)
    requires p.Sound()
  {
    TokensAre(tokens, log, Clip(p, Start(p, j)), Clip(p, Start(p, j + 1)))
  }

  lemma BucketTokensAre(p: Span, log: seq<Entry>, n: nat)
    requires p.Sound()
    ensures forall j :: 0 <= j < n ==> BucketIs(p, log, j, BucketTokens(p, log, j))
  {
    hide TokensAre;
    forall j | 0 <= j < n ensures BucketIs(p, log, j, BucketTokens(p, log, j)) {
      TokensInAre(log, Clip(p, Start(p, j)), Clip(p, Start(p, j + 1)));
    }
  }

  /** The buckets after some of the log, before any energy. */
  predicate Counted(p: Span, n: nat, buckets: map<real, Bucket>, log: seq<Entry>)
    requires p.Sound()
  {
    && buckets.Keys == Starts(p, n)
    && forall j :: 0 <= j < n ==> buckets[Start(p, j)] == Empty(Start(p, j)).(tokens := BucketTokens(p, log, j))
  }

  lemma OneMoreEntry(p: Span, n: nat, buckets: map<real, Bucket>, log: seq<Entry>, e: Entry)
    requires p.Sound() && Tiles(p, n) && Counted(p, n, buckets, log)
    ensures p.Covers(e.ts) ==> KeyOf(p, e.ts) in buckets
    ensures var k := KeyOf(p, e.ts);
            var after := if p.Covers(e.ts) then buckets[k := buckets[k].(tokens := Plus(buckets[k].tokens, Worth(e)))] else buckets;
            Counted(p, n, after, log + [e])
  {
    hide Start, Clip, KeyOf, TokensIn, Worth, Plus, Tiles;
    var k := KeyOf(p, e.ts);
    if p.Covers(e.ts) {
      KeyIsStart(p, n, e.ts);
    }
    var after := if p.Covers(e.ts) then buckets[k := buckets[k].(tokens := Plus(buckets[k].tokens, Worth(e)))] else buckets;
    forall j | 0 <= j < n
      ensures after[Start(p, j)] == Empty(Start(p, j)).(tokens := BucketTokens(p, log + [e], j))
    {
      TokensOfBucket(p, n, j, e);
      TokensOfOne(log, e, Clip(p, Start(p, j)), Clip(p, Start(p, j + 1)));
    }
  }

  lemma TokensOfOne(log: seq<Entry>, e: Entry, lo: real, hi: real)
    ensures TokensIn(log + [e], lo, hi) == if lo <= e.ts < hi then Plus(TokensIn(log, lo, hi), Worth(e)) else TokensIn(log, lo, hi)
  {
    assert (log + [e])[..|log|] == log;
  }

  method AddTokens(p: Span, ghost n: nat, start: map<real, Bucket>, log: seq<Entry>) returns (buckets: map<real, Bucket>)
    requires p.Sound() && Tiles(p, n) && start.Keys == Starts(p, n)
    requires forall k :: k in start ==> start[k] == Empty(k)
    ensures Counted(p, n, buckets, log)
    ensures forall j :: 0 <= j < n ==> BucketIs(p, log, j, buckets[Start(p, j)].tokens)
  {
    buckets := start;
    for i := 0 to |log|
      invariant Counted(p, n, buckets, log[..i])
    {
      hide Counted, KeyOf, Tiles;
      var e := log[i];
      assert log[..i + 1] == log[..i] + [e];
      OneMoreEntry(p, n, buckets, log[..i], e);
      if p.Covers(e.ts) {
        var k := KeyOf(p, e.ts);
        buckets := buckets[k := buckets[k].(tokens := Plus(buckets[k].tokens, Worth(e)))];
      }
    }
    assert log[..|log|] == log;
    hide BucketIs, BucketTokens;
    BucketTokensAre(p, log, n);
  }

  // --------------------------------------------------------------- GPU energy --

  datatype GpuRow = GpuRow(ts: real, card: nat, pwr: Option<real>)

  function CardStamps(rows: seq<GpuRow>, card: nat): set<real> {
    set i | 0 <= i < |rows| && rows[i].card == card :: rows[i].ts
  }

  /** The seconds a card's row stands for, if it counts. */
  function RowStep(p: Span, rows: seq<GpuRow>, i: nat): Option<real>
    requires i < |rows|
  {
    if rows[i].pwr.None? then None else StepAt(p, CardStamps(rows, rows[i].card), rows[i].ts)
  }

  /** All the draw counted at a moment by the first n rows. */
  function Drawn(p: Span, rows: seq<GpuRow>, n: nat, ts: real): Option<real>
    requires n <= |rows|
  {
    if n == 0 then None
    else
      var before := Drawn(p, rows, n - 1, ts);
      if rows[n - 1].ts == ts && RowStep(p, rows, n - 1).Some? then Some(before.Or(0.0) + rows[n - 1].pwr.value) else before
  }

  predicate StepFromRow(p: Span, rows: seq<GpuRow>, i: nat, ts: real, dt: real)
    requires i < |rows|
  {
    rows[i].ts == ts && RowStep(p, rows, i) == Some(dt)
  }

  datatype Power = Power(w: real, dt: real, busy: bool)

  function Busy(reqProc: map<real, Option<int>>, ts: real): bool { ts in reqProc && reqProc[ts].Or(0) > 0 }

  /** The total draw of the rows that count at each timestamp, the step of one of them, and whether
      a request was running. */
  ghost predicate Gathered(p: Span, rows: seq<GpuRow>, reqProc: map<real, Option<int>>, per: map<real, Power>) {
    && (forall ts :: ts in per <==> Drawn(p, rows, |rows|, ts).Some?)
    && forall ts :: ts in per ==>
         && per[ts].w == Drawn(p, rows, |rows|, ts).value && per[ts].busy == Busy(reqProc, ts)
         && exists i :: 0 <= i < |rows| && StepFromRow(p, rows, i, ts, per[ts].dt)
  }

  /** The dictionary of the total draw by timestamp, with the order of its keys. */
  method Gather(p: Span, rows: seq<GpuRow>, reqProc: map<real, Option<int>>) returns (per: map<real, Power>, order: seq<real>)
    requires p.Sound()
    ensures forall ts :: ts in order <==> ts in per
    ensures forall i, j :: 0 <= i < j < |order| ==> order[i] != order[j]
    ensures Gathered(p, rows, reqProc, per)
  {
    per, order := map[], [];
    for n := 0 to |rows|
      invariant forall ts :: ts in order <==> ts in per
      invariant forall i, j :: 0 <= i < j < |order| ==> order[i] != order[j]
      invariant forall ts :: ts in per <==> Drawn(p, rows, n, ts).Some?
      invariant forall ts :: ts in per ==>
        && per[ts].w == Drawn(p, rows, n, ts).value && per[ts].busy == Busy(reqProc, ts)
        && exists i :: 0 <= i < n && StepFromRow(p, rows, i, ts, per[ts].dt)
    {
      hide StepAt, CardStamps, Busy;
      var g := rows[n];
      if g.pwr.None? { continue; }
      var dt := StepAt(p, CardStamps(rows, g.card), g.ts);
      if dt.None? { continue; }
      if g.ts !in per {
        per := per[g.ts := Power(0.0, dt.value, Busy(reqProc, g.ts))];
        order := order + [g.ts];
        assert StepFromRow(p, rows, n, g.ts, dt.value);
      }
      per := per[g.ts := per[g.ts].(w := per[g.ts].w + g.pwr.value)];
    }
  }

  /** Every card has a row at every stored timestamp. */
  predicate Aligned(rows: seq<GpuRow>) {
    forall i, j :: 0 <= i < |rows| && 0 <= j < |rows| ==> CardStamps(rows, rows[i].card) == CardStamps(rows, rows[j].card)
  }

  function Stamps(rows: seq<GpuRow>): set<real> { set i | 0 <= i < |rows| :: rows[i].ts }

  /** The draw of all cards at a moment. */
  function Draw(rows: seq<GpuRow>, ts: real): Option<real> {
    if rows == [] then None
    else
      var before, g := Draw(rows[..|rows| - 1], ts), rows[|rows| - 1];
      if g.ts == ts && g.pwr.Some? then Some(before.Or(0.0) + g.pwr.value) else before
  }

  /** The draws add up, however the rows are parted; a NULL is none. */
  lemma {:induction false} DrawAddsUp(a: seq<GpuRow>, b: seq<GpuRow>, ts: real)
    ensures Draw(a + b, ts) == Combine(Rule.Sum, Draw(a, ts), Draw(b, ts))
    ensures |b| == 1 ==> Draw(b, ts) == if b[0].ts == ts then b[0].pwr else None
    decreases |b|
  {
    if b == [] {
      assert a + b == a;
    } else {
      assert (a + b)[..|a + b| - 1] == a + b[..|b| - 1];
      DrawAddsUp(a, b[..|b| - 1], ts);
    }
  }

  function GpuWatts(rows: seq<GpuRow>): map<real, real> {
    map ts | ts in Stamps(rows) && Draw(rows, ts).Some? :: Draw(rows, ts).value
  }

  function GpuWh(per: map<real, Power>): Column { map ts | ts in per :: Some(Wh(per[ts].w, per[ts].dt)) }

  function GpuSeconds(per: map<real, Power>): Column { map ts | ts in per :: Some(per[ts].dt) }

  function BusyWh(per: map<real, Power>): Column {
    map ts | ts in per && per[ts].busy :: Some(Wh(per[ts].w, per[ts].dt))
  }

  lemma AlignedStamps(rows: seq<GpuRow>, i: nat)
    requires Aligned(rows) && i < |rows|
    ensures CardStamps(rows, rows[i].card) == Stamps(rows)
  {
    forall ts | ts in Stamps(rows) ensures ts in CardStamps(rows, rows[i].card) {
      var j :| 0 <= j < |rows| && rows[j].ts == ts;
      assert ts in CardStamps(rows, rows[j].card);
    }
  }

  lemma {:induction false} DrawnIsDraw(p: Span, rows: seq<GpuRow>, n: nat, ts: real)
    requires Aligned(rows) && n <= |rows|
    ensures Drawn(p, rows, n, ts) == if StepAt(p, Stamps(rows), ts).Some? then Draw(rows[..n], ts) else None
  {
    hide StepAt, CardStamps, Stamps, Aligned;
    if n == 0 {
    } else {
      DrawnIsDraw(p, rows, n - 1, ts);
      AlignedStamps(rows, n - 1);
      assert rows[..n][..n - 1] == rows[..n - 1];
    }
  }

  lemma GatheredRow(p: Span, rows: seq<GpuRow>, reqProc: map<real, Option<int>>, per: map<real, Power>, ts: real)
    requires Aligned(rows) && Gathered(p, rows, reqProc, per)
    ensures ts in per <==> ts in GpuWatts(rows) && StepAt(p, Stamps(rows), ts).Some?
    ensures ts in per ==> per[ts].w == GpuWatts(rows)[ts] && StepAt(p, Stamps(rows), ts) == Some(per[ts].dt)
  {
    hide StepAt, CardStamps, Aligned, Wh, Draw, Drawn;
    assert rows[..|rows|] == rows;
    DrawnIsDraw(p, rows, |rows|, ts);
    if Draw(rows, ts).Some? {
      DrawnSomewhere(rows, ts);
    }
    if ts in per {
      var i :| 0 <= i < |rows| && StepFromRow(p, rows, i, ts, per[ts].dt);
      AlignedStamps(rows, i);
    }
  }

  /** With a row per card at every timestamp, the GPUs' energy is that of their total draw. */
  lemma GatherIsEnergy(p: Span, rows: seq<GpuRow>, reqProc: map<real, Option<int>>, per: map<real, Power>)
    requires Aligned(rows) && Gathered(p, rows, reqProc, per)
    ensures GpuWh(per) == Energy(p, GpuWatts(rows), Stamps(rows))
    ensures GpuSeconds(per) == Steps(p, GpuWatts(rows).Keys, Stamps(rows))
    ensures GpuWatts(rows).Keys <= Stamps(rows)
  {
    hide StepAt, CardStamps, Aligned, Wh, Gathered, GpuWatts, Stamps;
    forall ts
      ensures ts in per <==> ts in GpuWatts(rows) && StepAt(p, Stamps(rows), ts).Some?
      ensures ts in per ==> per[ts].w == GpuWatts(rows)[ts] && StepAt(p, Stamps(rows), ts) == Some(per[ts].dt)
    {
      GatheredRow(p, rows, reqProc, per, ts);
    }
    forall ts | ts in GpuWatts(rows)
      ensures WhAt(p, GpuWatts(rows), Stamps(rows), ts) == if ts in per then Some(Wh(per[ts].w, per[ts].dt)) else None
    {
      GatheredRow(p, rows, reqProc, per, ts);
    }
    var g, e := GpuWh(per), Energy(p, GpuWatts(rows), Stamps(rows));
    assert forall ts :: ts in e <==> ts in g;
    assert forall ts :: ts in e ==> e[ts] == g[ts];
    WattsAtStamps(rows);
  }

  lemma WattsAtStamps(rows: seq<GpuRow>)
    ensures GpuWatts(rows).Keys <= Stamps(rows)
  {
  }

  lemma {:induction false} DrawnSomewhere(rows: seq<GpuRow>, ts: real)
    requires Draw(rows, ts).Some?
    ensures exists i :: 0 <= i < |rows| && rows[i].ts == ts
  {
    var n := |rows| - 1;
    if rows[n].ts != ts {
      DrawnSomewhere(rows[..n], ts);
      var i :| 0 <= i < |rows[..n]| && rows[..n][i].ts == ts;
      assert rows[i].ts == ts;
    }
  }

  // ------------------------------------------------------------ filling buckets --

  /** The buckets with the log counted, and some of the GPU and of the host energy. */
  predicate Filled(p: Span, n: nat, buckets: map<real, Bucket>, log: seq<Entry>,
                   gpu: Column, gpuDone: set<real>, host: Column, hostDone: set<real>)
    requires p.Sound()
  {
    && buckets.Keys == Starts(p, n)
    && forall j :: 0 <= j < n ==>
         buckets[Start(p, j)] == Bucket(Start(p, j), BucketTokens(p, log, j),
                                        Sum(Part(InKey(p, gpu, Start(p, j)), gpuDone)),
                                        Fold(Rule.Sum, Part(InKey(p, host, Start(p, j)), hostDone)))
  }

  lemma PartGrows(m: Column, done: set<real>, ts: real)
    requires ts !in done
    ensures Fold(Rule.Sum, Part(m, done + {ts}))
            == if ts in m then Combine(Rule.Sum, m[ts], Fold(Rule.Sum, Part(m, done))) else Fold(Rule.Sum, Part(m, done))
  {
    hide Fold;
    var more := Part(m, done + {ts});
    if ts in m {
      FoldAny(Rule.Sum, more, ts);
      assert more - {ts} == Part(m, done);
    } else {
      assert more == Part(m, done);
    }
  }

  lemma MoreGpu(p: Span, n: nat, buckets: map<real, Bucket>, log: seq<Entry>,
                gpu: Column, gpuDone: set<real>, host: Column, hostDone: set<real>, ts: real)
    requires p.Sound() && Tiles(p, n) && Filled(p, n, buckets, log, gpu, gpuDone, host, hostDone)
    requires ts in gpu && ts !in gpuDone && p.Covers(ts) && gpu[ts].Some?
    ensures KeyOf(p, ts) in buckets
    ensures var b := buckets[KeyOf(p, ts)];
            var after := buckets[KeyOf(p, ts) := b.(gpuWh := b.gpuWh + gpu[ts].value)];
            Filled(p, n, after, log, gpu, gpuDone + {ts}, host, hostDone)
  {
    hide Start, KeyOf, BucketTokens, Tiles, Fold;
    KeyIsStart(p, n, ts);
    forall j | 0 <= j < n ensures Sum(Part(InKey(p, gpu, Start(p, j)), gpuDone + {ts}))
      == Sum(Part(InKey(p, gpu, Start(p, j)), gpuDone)) + if KeyOf(p, ts) == Start(p, j) then gpu[ts].value else 0.0
    {
      PartGrows(InKey(p, gpu, Start(p, j)), gpuDone, ts);
    }
    hide InKey, Part, Sum;
  }

  lemma MoreHost(p: Span, n: nat, buckets: map<real, Bucket>, log: seq<Entry>,
                 gpu: Column, gpuDone: set<real>, host: Column, hostDone: set<real>, ts: real)
    requires p.Sound() && Tiles(p, n) && Filled(p, n, buckets, log, gpu, gpuDone, host, hostDone)
    requires ts in host && ts !in hostDone && p.Covers(ts) && host[ts].Some?
    ensures KeyOf(p, ts) in buckets
    ensures var b := buckets[KeyOf(p, ts)];
            var after := buckets[KeyOf(p, ts) := b.(hostWh := Some(b.hostWh.Or(0.0) + host[ts].value))];
            Filled(p, n, after, log, gpu, gpuDone, host, hostDone + {ts})
  {
    hide Start, KeyOf, BucketTokens, Tiles, Fold;
    KeyIsStart(p, n, ts);
    forall j | 0 <= j < n ensures Fold(Rule.Sum, Part(InKey(p, host, Start(p, j)), hostDone + {ts}))
      == var before := Fold(Rule.Sum, Part(InKey(p, host, Start(p, j)), hostDone));
         if KeyOf(p, ts) == Start(p, j) then Some(before.Or(0.0) + host[ts].value) else before
    {
      PartGrows(InKey(p, host, Start(p, j)), hostDone, ts);
    }
    hide InKey, Part, Sum;
  }

  method AddGpu(p: Span, ghost n: nat, start: map<real, Bucket>, ghost log: seq<Entry>, per: map<real, Power>, order: seq<real>)
      returns (buckets: map<real, Bucket>, gpuWh: real, busyWh: real, coveredS: real)
    requires p.Sound() && Tiles(p, n) && Filled(p, n, start, log, GpuWh(per), {}, map[], {})
    requires forall ts :: ts in order <==> ts in per
    requires forall i, j :: 0 <= i < j < |order| ==> order[i] != order[j]
    requires forall ts :: ts in per ==> p.Covers(ts)
    ensures Filled(p, n, buckets, log, GpuWh(per), GpuWh(per).Keys, map[], {})
    ensures gpuWh == Sum(GpuWh(per)) && busyWh == Sum(BusyWh(per)) && coveredS == Sum(GpuSeconds(per))
  {
    hide Filled, KeyOf, Tiles, Fold, Wh, Part, Sum, GpuWh, BusyWh, GpuSeconds;
    buckets := start;
    gpuWh, busyWh, coveredS := 0.0, 0.0, 0.0;
    ghost var done: set<real> := {};
    SumOfNone(GpuWh(per));
    SumOfNone(BusyWh(per));
    SumOfNone(GpuSeconds(per));
    for i := 0 to |order|
      invariant forall ts :: ts in done <==> ts in order[..i]
      invariant Filled(p, n, buckets, log, GpuWh(per), done, map[], {})
      invariant gpuWh == Sum(Part(GpuWh(per), done)) && busyWh == Sum(Part(BusyWh(per), done))
      invariant coveredS == Sum(Part(GpuSeconds(per), done))
    {
      var ts := order[i];
      assert order[..i + 1] == order[..i] + [ts] && ts !in done;
      var power := per[ts];
      var wh := Wh(power.w, power.dt);
      MorePower(per, done, ts);
      MoreGpu(p, n, buckets, log, GpuWh(per), done, map[], {}, ts);
      gpuWh := gpuWh + wh;
      coveredS := coveredS + power.dt;
      var k := KeyOf(p, ts);
      buckets := buckets[k := buckets[k].(gpuWh := buckets[k].gpuWh + wh)];
      if power.busy {
        busyWh := busyWh + wh;
      }
      done := done + {ts};
    }
    assert order[..|order|] == order;
    assert forall ts :: ts in done <==> ts in per;
    AllPower(per, done);
  }

  lemma MorePower(per: map<real, Power>, done: set<real>, ts: real)
    requires ts in per && ts !in done
    ensures var wh := Wh(per[ts].w, per[ts].dt);
            && ts in GpuWh(per) && GpuWh(per)[ts] == Some(wh)
            && Sum(Part(GpuWh(per), done + {ts})) == Sum(Part(GpuWh(per), done)) + wh
            && Sum(Part(BusyWh(per), done + {ts})) == Sum(Part(BusyWh(per), done)) + (if per[ts].busy then wh else 0.0)
            && Sum(Part(GpuSeconds(per), done + {ts})) == Sum(Part(GpuSeconds(per), done)) + per[ts].dt
  {
    hide Fold, Wh, Part;
    PartGrows(GpuWh(per), done, ts);
    PartGrows(BusyWh(per), done, ts);
    PartGrows(GpuSeconds(per), done, ts);
  }

  lemma AllPower(per: map<real, Power>, done: set<real>)
    requires forall ts :: ts in done <==> ts in per
    ensures done == GpuWh(per).Keys
    ensures Part(GpuWh(per), done) == GpuWh(per) && Part(BusyWh(per), done) == BusyWh(per)
    ensures Part(GpuSeconds(per), done) == GpuSeconds(per)
  {
    hide Wh;
    assert forall ts :: ts in done <==> ts in GpuWh(per);
  }

  lemma SumOfNone(m: Column)
    ensures Fold(Rule.Sum, Part(m, {})) == None && Sum(Part(m, {})) == 0.0
  {
    assert Part(m, {}) == map[];
  }

  /** A row of the samples table, whose key is its timestamp. */
  datatype Reading = Reading(ts: real, hostW: Option<real>)

  predicate Keyed(rows: seq<Reading>) { forall i, j :: 0 <= i < j < |rows| ==> rows[i].ts != rows[j].ts }

  function Watts(rows: seq<Reading>): map<real, real> {
    if rows == [] then map[]
    else
      var before, r := Watts(rows[..|rows| - 1]), rows[|rows| - 1];
      if r.hostW.Some? then before[r.ts := r.hostW.value] else before
  }

  lemma {:induction false} WattsOfRows(rows: seq<Reading>)
    requires Keyed(rows)
    ensures forall ts :: ts in Watts(rows) ==> exists i :: 0 <= i < |rows| && rows[i].ts == ts && rows[i].hostW.Some?
    ensures forall i :: 0 <= i < |rows| ==>
      if rows[i].hostW.Some? then rows[i].ts in Watts(rows) && Watts(rows)[rows[i].ts] == rows[i].hostW.value
      else rows[i].ts !in Watts(rows)
  {
    if rows == [] {
    } else {
      var front := rows[..|rows| - 1];
      WattsOfRows(front);
      assert forall i :: 0 <= i < |front| ==> front[i] == rows[i];
      forall ts | ts in Watts(rows) ensures exists i :: 0 <= i < |rows| && rows[i].ts == ts && rows[i].hostW.Some? {
        if ts in Watts(front) {
          var i :| 0 <= i < |front| && front[i].ts == ts && front[i].hostW.Some?;
          assert rows[i].ts == ts;
        } else {
          assert rows[|rows| - 1].ts == ts;
        }
      }
    }
  }

  lemma WholePart(m: Column, done: set<real>)
    requires forall ts :: ts in done <==> ts in m
    ensures done == m.Keys && Part(m, done) == m
  {
    assert forall ts :: ts in done <==> ts in m.Keys;
  }

  function HostWh(p: Span, rows: seq<Reading>): Column { Energy(p, Watts(rows), Watts(rows).Keys) }

  method AddHost(p: Span, ghost n: nat, start: map<real, Bucket>, ghost log: seq<Entry>, ghost gpu: Column, rows: seq<Reading>)
      returns (buckets: map<real, Bucket>, hostWh: Option<real>)
    requires p.Sound() && Tiles(p, n) && Keyed(rows) && Filled(p, n, start, log, gpu, gpu.Keys, HostWh(p, rows), {})
    ensures Filled(p, n, buckets, log, gpu, gpu.Keys, HostWh(p, rows), HostWh(p, rows).Keys)
    ensures hostWh == Fold(Rule.Sum, HostWh(p, rows))
  {
    hide Filled, KeyOf, Tiles, Fold, Wh, Watts, StepAt;
    buckets := start;
    hostWh := None;
    var watts := Watts(rows);
    ghost var host := HostWh(p, rows);
    ghost var done: set<real> := {};
    WattsOfRows(rows);
    SumOfNone(host);
    for i := 0 to |rows|
      invariant forall ts :: ts in done <==> exists j :: 0 <= j < i && rows[j].ts == ts && ts in host
      invariant Filled(p, n, buckets, log, gpu, gpu.Keys, host, done)
      invariant hostWh == Fold(Rule.Sum, Part(host, done))
    {
      var r := rows[i];
      if r.hostW.None? { continue; }
      var dt := StepAt(p, watts.Keys, r.ts);
      if dt.None? { continue; }
      var wh := Wh(r.hostW.value, dt.value);
      assert r.ts in host && host[r.ts] == Some(wh) && r.ts !in done;
      PartGrows(host, done, r.ts);
      MoreHost(p, n, buckets, log, gpu, gpu.Keys, host, done, r.ts);
      hostWh := Some(hostWh.Or(0.0) + wh);
      var k := KeyOf(p, r.ts);
      buckets := buckets[k := buckets[k].(hostWh := Some(buckets[k].hostWh.Or(0.0) + wh))];
      done := done + {r.ts};
    }
    forall ts | ts in host ensures ts in done {
      var j :| 0 <= j < |rows| && rows[j].ts == ts && rows[j].hostW.Some?;
    }
    WholePart(host, done);
  }

  /** sorted(buckets), bar those that start too early or too late. */
  method Collect(p: Span, buckets: map<real, Bucket>, ghost n: nat) returns (rows: seq<Bucket>)
    requires p.Sound() && Tiles(p, n) && buckets.Keys == Starts(p, n)
    ensures |rows| == n && forall j :: 0 <= j < n ==> rows[j] == buckets[Start(p, j)]
  {
    rows := [];
    var keys := buckets.Keys;
    assert n > 0 ==> Start(p, 0) in keys;
    while keys != {}
      invariant |rows| < n ==> Start(p, |rows|) in keys
      invariant |rows| <= n && forall j :: 0 <= j < |rows| ==> rows[j] == buckets[Start(p, j)]
      invariant forall k :: k in keys <==> exists j :: |rows| <= j < n && k == Start(p, j)
      decreases keys
    {
      var k := Least(keys);
      LeastStart(p, keys, |rows|, n);
      KeptStart(p, n, |rows|);
      keys := keys - {k};
      if p.since - p.bucket < k < p.until {
        rows := rows + [buckets[k]];
      }
    }
  }

  lemma LeastStart(p: Span, keys: set<real>, i: nat, n: nat)
    requires p.Sound() && keys != {}
    requires forall k :: k in keys <==> exists j :: i <= j < n && k == Start(p, j)
    ensures i < n && Least(keys) == Start(p, i)
    ensures forall k :: k in keys - {Least(keys)} <==> exists j :: i + 1 <= j < n && k == Start(p, j)
  {
    hide Edge, Number;
    var k := Least(keys);
    var j :| i <= j < n && k == Start(p, j);
    assert Start(p, i) in keys;
    forall a, b | i <= a < b < n ensures Start(p, a) < Start(p, b) {
      EdgesAscend(p, Number(p, p.since) + a, Number(p, p.since) + b);
    }
  }

  lemma KeptStart(p: Span, n: nat, j: nat)
    requires p.Sound() && Tiles(p, n) && j < n
    ensures p.since - p.bucket < Start(p, j) < p.until
  {
    hide Edge, Number;
    KeyBounds(p, p.since);
    var first := Number(p, p.since);
    EdgesAscend(p, first + j, first);
    EdgesAscend(p, first, first + j);
    EdgesAscend(p, first + j, first + (n - 1));
    EdgesAscend(p, first + (n - 1), first + j);
  }

  datatype Report = Report(rows: seq<Bucket>, tokens: Tokens, gpuWh: real, hostWh: Option<real>, busyWh: real, coveredS: real)

  function TokensOf(rows: seq<Bucket>): seq<Tokens> { seq(|rows|, j requires 0 <= j < |rows| => rows[j].tokens) }

  function GpuOf(rows: seq<Bucket>): seq<Option<real>> { seq(|rows|, j requires 0 <= j < |rows| => Some(rows[j].gpuWh)) }

  function HostOf(rows: seq<Bucket>): seq<Option<real>> { seq(|rows|, j requires 0 <= j < |rows| => rows[j].hostWh) }

  lemma GatheredCovers(p: Span, rows: seq<GpuRow>, reqProc: map<real, Option<int>>, per: map<real, Power>)
    requires Gathered(p, rows, reqProc, per)
    ensures forall ts :: ts in per ==> p.Covers(ts)
  {
    forall ts | ts in per ensures p.Covers(ts) {
      var i :| 0 <= i < |rows| && StepFromRow(p, rows, i, ts, per[ts].dt);
    }
  }

  lemma NothingYet(p: Span, n: nat, buckets: map<real, Bucket>, log: seq<Entry>, gpu: Column)
    requires p.Sound() && Counted(p, n, buckets, log)
    ensures Filled(p, n, buckets, log, gpu, {}, map[], {})
  {
    forall j | 0 <= j < n
      ensures Sum(Part(InKey(p, gpu, Start(p, j)), {})) == 0.0
      ensures Fold(Rule.Sum, Part(InKey(p, map[], Start(p, j)), {})) == None
    {
      SumOfNone(InKey(p, gpu, Start(p, j)));
      SumOfNone(InKey(p, map[], Start(p, j)));
    }
    hide Fold, Start, InKey, BucketTokens;
  }

  lemma NoHostYet(p: Span, n: nat, buckets: map<real, Bucket>, log: seq<Entry>, gpu: Column, host: Column)
    requires p.Sound() && Filled(p, n, buckets, log, gpu, gpu.Keys, map[], {})
    ensures Filled(p, n, buckets, log, gpu, gpu.Keys, host, {})
  {
    hide Fold, Start, InKey, BucketTokens, Sum, Part;
    forall j | 0 <= j < n
      ensures Fold(Rule.Sum, Part(InKey(p, map[], Start(p, j)), {})) == Fold(Rule.Sum, Part(InKey(p, host, Start(p, j)), {}))
    {
      SumOfNone(InKey(p, host, Start(p, j)));
      SumOfNone(InKey(p, map[], Start(p, j)));
    }
  }

  lemma AllDone(p: Span, n: nat, buckets: map<real, Bucket>, log: seq<Entry>, gpu: Column, host: Column)
    requires p.Sound() && Filled(p, n, buckets, log, gpu, gpu.Keys, host, host.Keys)
    ensures buckets.Keys == Starts(p, n)
    ensures forall j :: 0 <= j < n ==>
      buckets[Start(p, j)] == Bucket(Start(p, j), BucketTokens(p, log, j),
                                     Sum(InKey(p, gpu, Start(p, j))), Fold(Rule.Sum, InKey(p, host, Start(p, j))))
  {
    hide Fold, Start, BucketTokens, Sum, KeyOf;
    forall j | 0 <= j < n
      ensures Part(InKey(p, gpu, Start(p, j)), gpu.Keys) == InKey(p, gpu, Start(p, j))
      ensures Part(InKey(p, host, Start(p, j)), host.Keys) == InKey(p, host, Start(p, j))
    {
    }
  }

  lemma HostCovers(p: Span, rows: seq<Reading>)
    ensures forall ts :: ts in HostWh(p, rows) ==> p.Covers(ts)
  {
  }

  lemma {:induction false} GpuSumsAgree(a: seq<Option<real>>, b: seq<Option<real>>)
    requires |a| == |b| && forall j :: 0 <= j < |a| ==> a[j].Or(0.0) == b[j].Or(0.0)
    ensures FoldSeq(Rule.Sum, a).Or(0.0) == FoldSeq(Rule.Sum, b).Or(0.0)
  {
    if a == [] {
    } else {
      GpuSumsAgree(a[..|a| - 1], b[..|b| - 1]);
    }
  }

  /** The rows of a report, bucket by bucket. */
  predicate RowsAre(p: Span, n: nat, rows: seq<Bucket>, log: seq<Entry>, gpu: Column, host: Column)
    requires p.Sound()
  {
    && |rows| == n
    && forall j :: 0 <= j < n ==>
         rows[j] == Bucket(Start(p, j), BucketTokens(p, log, j),
                           Sum(InKey(p, gpu, Start(p, j))), Fold(Rule.Sum, InKey(p, host, Start(p, j))))
  }

  /** The main result on buckets: they add up to all that the window holds. */
  lemma BucketsAddUp(p: Span, n: nat, rows: seq<Bucket>, log: seq<Entry>, gpu: Column, host: Column)
    requires p.Sound() && Tiles(p, n) && RowsAre(p, n, rows, log, gpu, host)
    requires forall ts :: ts in gpu || ts in host ==> p.Covers(ts)
    ensures Total(TokensOf(rows)) == TokensIn(log, p.since, p.until)
    ensures FoldSeq(Rule.Sum, GpuOf(rows)).Or(0.0) == Sum(gpu)
    ensures FoldSeq(Rule.Sum, HostOf(rows)) == Fold(Rule.Sum, host)
  {
    hide Tiles, Start, InKey, BucketTokens, Fold, FoldSeq;
    TokensInBuckets(p, log, n);
    assert TokensOf(rows) == seq(n, j requires 0 <= j < n => BucketTokens(p, log, j));
    EnergyInBuckets(p, host, n);
    assert HostOf(rows) == BucketSums(p, host, n);
    EnergyInBuckets(p, gpu, n);
    GpuSumsAgree(GpuOf(rows), BucketSums(p, gpu, n));
  }

  method SumTokens(rows: seq<Bucket>) returns (tokens: Tokens)
    ensures tokens == Total(TokensOf(rows))
  {
    tokens := NONE;
    for i := 0 to |rows|
      invariant tokens == Total(TokensOf(rows[..i]))
    {
      assert TokensOf(rows[..i + 1])[..i] == TokensOf(rows[..i]);
      tokens := Plus(tokens, rows[i].tokens);
    }
    assert rows[..|rows|] == rows;
  }

  /** What a report of a window says. `per` is the draw by timestamp it was made from. */
  ghost predicate ReportOf(p: Span, log: seq<Entry>, gpu: seq<GpuRow>, reqProc: map<real, Option<int>>, host: seq<Reading>,
                           r: Report, n: nat, per: map<real, Power>)
    requires p.Sound()
  {
    && Tiles(p, n) && Gathered(p, gpu, reqProc, per)
    && RowsAre(p, n, r.rows, log, GpuWh(per), HostWh(p, host))
    && r.tokens == TokensIn(log, p.since, p.until)
    && r.gpuWh == Sum(GpuWh(per)) && r.hostWh == Fold(Rule.Sum, HostWh(p, host))
    && r.busyWh == Sum(BusyWh(per)) && r.coveredS == Sum(GpuSeconds(per))
  }

  /** The whole report. */
  method UsageReport(p: Span, log: seq<Entry>, gpu: seq<GpuRow>, reqProc: map<real, Option<int>>, host: seq<Reading>)
      returns (r: Report, ghost n: nat, ghost per: map<real, Power>)
    requires p.Sound() && Keyed(host)
    ensures ReportOf(p, log, gpu, reqProc, host, r, n, per)
    ensures |r.rows| == n && forall j :: 0 <= j < n ==> r.rows[j].ts == Start(p, j) && r.rows[j].tokens == BucketTokens(p, log, j)
    ensures r.tokens == TokensIn(log, p.since, p.until) && r.hostWh == Fold(Rule.Sum, HostWh(p, host))
    ensures TokensAre(r.tokens, log, p.since, p.until)
    ensures forall j :: 0 <= j < n ==> BucketIs(p, log, j, r.rows[j].tokens)
  {
    hide TokensAre, BucketIs, TokensIn, Filled, Counted, Tiles, Gathered, Start, Fold, InKey, HostWh, GpuWh, BusyWh, GpuSeconds,
      Sum, BucketTokens;
    var buckets;
    buckets, n := Prefill(p);
    buckets := AddTokens(p, n, buckets, log);
    var power, order := Gather(p, gpu, reqProc);
    per := power;
    GatheredCovers(p, gpu, reqProc, per);
    NothingYet(p, n, buckets, log, GpuWh(per));
    var gpuWh, busyWh, coveredS;
    buckets, gpuWh, busyWh, coveredS := AddGpu(p, n, buckets, log, power, order);
    NoHostYet(p, n, buckets, log, GpuWh(per), HostWh(p, host));
    var hostWh;
    buckets, hostWh := AddHost(p, n, buckets, log, GpuWh(per), host);
    AllDone(p, n, buckets, log, GpuWh(per), HostWh(p, host));
    var rows := Collect(p, buckets, n);
    var tokens := SumTokens(rows);
    r := Report(rows, tokens, gpuWh, hostWh, busyWh, coveredS);
    EnergyCovers(p, gpu, reqProc, per, host);
    BucketsAddUp(p, n, rows, log, GpuWh(per), HostWh(p, host));
    TokensInAre(log, p.since, p.until);
    BucketTokensAre(p, log, n);
  }

  lemma EnergyCovers(p: Span, gpu: seq<GpuRow>, reqProc: map<real, Option<int>>, per: map<real, Power>, host: seq<Reading>)
    requires Gathered(p, gpu, reqProc, per)
    ensures forall ts :: ts in GpuWh(per) || ts in HostWh(p, host) ==> p.Covers(ts)
  {
    hide Wh;
    GatheredCovers(p, gpu, reqProc, per);
    HostCovers(p, host);
  }

  lemma {:induction false} DrawnNotNegative(p: Span, rows: seq<GpuRow>, n: nat, ts: real)
    requires n <= |rows| && forall i :: 0 <= i < |rows| && rows[i].pwr.Some? ==> rows[i].pwr.value >= 0.0
    ensures Drawn(p, rows, n, ts).Or(0.0) >= 0.0
  {
    if n == 0 {
    } else {
      DrawnNotNegative(p, rows, n - 1, ts);
    }
  }

  /** Energy drawn while requests ran is at most all the energy. */
  lemma BusyAtMostAll(p: Span, rows: seq<GpuRow>, reqProc: map<real, Option<int>>, per: map<real, Power>)
    requires p.Sound() && Gathered(p, rows, reqProc, per)
    requires forall i :: 0 <= i < |rows| && rows[i].pwr.Some? ==> rows[i].pwr.value >= 0.0
    ensures Sum(BusyWh(per)) <= Sum(GpuWh(per))
  {
    hide Drawn, Sum, CardStamps;
    var busy := set ts | ts in per && per[ts].busy;
    forall ts | ts in per ensures Wh(per[ts].w, per[ts].dt) >= 0.0 {
      var i :| 0 <= i < |rows| && StepFromRow(p, rows, i, ts, per[ts].dt);
      DrawnNotNegative(p, rows, |rows|, ts);
      WhNotNegative(per[ts].w, per[ts].dt);
    }
    hide Wh, Gathered;
    assert Part(GpuWh(per), busy) == BusyWh(per);
    PartAtMostWhole(GpuWh(per), busy);
  }

  /** At least one request is being worked on. */
  predicate Running(reqProc: map<real, Option<int>>, ts: real) {
    ts in reqProc && reqProc[ts].Some? && reqProc[ts].value >= 1
  }

  function IdleWh(per: map<real, Power>, reqProc: map<real, Option<int>>): Column {
    map ts | ts in per && !Running(reqProc, ts) :: Some(Wh(per[ts].w, per[ts].dt))
  }

  /** All energy was drawn while some request ran, and is busy energy, or while none did. */
  lemma BusyOrIdle(p: Span, rows: seq<GpuRow>, reqProc: map<real, Option<int>>, per: map<real, Power>)
    requires Gathered(p, rows, reqProc, per)
    ensures forall ts :: ts in BusyWh(per) ==> Running(reqProc, ts)
    ensures Sum(GpuWh(per)) == Sum(BusyWh(per)) + Sum(IdleWh(per, reqProc))
  {
    hide Drawn, Sum, CardStamps, Wh, StepFromRow;
    var busy := set ts | ts in per && Running(reqProc, ts);
    forall ts | ts in per ensures per[ts].busy <==> Running(reqProc, ts) {}
    hide Gathered;
    assert Part(GpuWh(per), busy) == BusyWh(per);
    assert forall ts :: ts in GpuWh(per) - busy <==> ts in IdleWh(per, reqProc);
    assert GpuWh(per) - busy == IdleWh(per, reqProc);
    SumSplits(GpuWh(per), busy);
  }

  lemma SumSplits(m: Column, keys: set<real>)
    ensures Sum(m) == Sum(Part(m, keys)) + Sum(m - keys)
  {
    FoldSplit(Rule.Sum, m, keys);
  }

  lemma WhNotNegative(w: real, dt: real)
    requires w >= 0.0 && dt >= 0.0
    ensures Wh(w, dt) >= 0.0
  {
    assert w * dt >= 0.0;
  }

  /** What covered_s comes to when every card has a row at every timestamp. */
  lemma CoveredIsBounded(p: Span, gpu: seq<GpuRow>, reqProc: map<real, Option<int>>, per: map<real, Power>)
    requires Aligned(gpu) && Gathered(p, gpu, reqProc, per) && p.since <= p.until && p.cap >= 0.0
    ensures Sum(GpuSeconds(per)) <= p.until - p.since + p.cap
  {
    GatherIsEnergy(p, gpu, reqProc, per);
    CoveredAtMost(p, GpuWatts(gpu).Keys, Stamps(gpu));
  }

  /** The reports of a window and of its two parts: tokens and requests add up, and so does energy but
      for the one capped step; the host's always, the GPUs' when every card has a row at every
      timestamp. */
  lemma ReportsSplit(p: Span, b: real, log: seq<Entry>, gpu: seq<GpuRow>, reqProc: map<real, Option<int>>, host: seq<Reading>,
                     r: Report, n: nat, per: map<real, Power>, r1: Report, n1: nat, per1: map<real, Power>,
                     r2: Report, n2: nat, per2: map<real, Power>)
    requires p.Sound() && p.since <= b <= p.until
    requires ReportOf(p, log, gpu, reqProc, host, r, n, per)
    requires ReportOf(p.(until := b), log, gpu, reqProc, host, r1, n1, per1)
    requires ReportOf(p.(since := b), log, gpu, reqProc, host, r2, n2, per2)
    ensures r.tokens == Plus(r1.tokens, r2.tokens)
    ensures r.hostWh.Or(0.0) == r1.hostWh.Or(0.0) + r2.hostWh.Or(0.0) + Overlap(Watts(host), Watts(host).Keys, p, b)
    ensures Aligned(gpu) ==> r.gpuWh == r1.gpuWh + r2.gpuWh + Overlap(GpuWatts(gpu), Stamps(gpu), p, b)
  {
    hide Tiles, RowsAre, Gathered, Energy, Fold, Watts, GpuWatts, Stamps, Aligned, Overlap, Plus;
    TokensSplit(log, p.since, b, p.until);
    EnergySplits(Watts(host), Watts(host).Keys, p, b);
    if Aligned(gpu) {
      GatherIsEnergy(p, gpu, reqProc, per);
      GatherIsEnergy(p.(until := b), gpu, reqProc, per1);
      GatherIsEnergy(p.(since := b), gpu, reqProc, per2);
      EnergySplits(GpuWatts(gpu), Stamps(gpu), p, b);
    }
  }
}
