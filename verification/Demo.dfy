/** The demo's endless replay of a recorded session (app/inferenceinquire/demo.py). */
module Demo {

  import opened Basics
  import Aggregates

  datatype Json = Obj(fields: map<string, Json>) | Arr(items: seq<Json>) | Num(n: real) | Other

  datatype Part = Key(name: string) | Index(i: nat)

  type Path = seq<Part>

  /** A recorded answer; of /metrics only the counters, by name. */
  datatype Body = Tree(json: Json) | Metrics(counters: map<string, real>) | Plain | Failed

  datatype Frame = Frame(t: real, answers: map<string, Body>)

  const AGENT := "/metrics.json"
  const METRICS := "/metrics"

  const TS_KEYS: set<string> := {"ts", "started", "finished", "active_since", "counters_since"}

  const COUNTERS: seq<Path> := [
    [Key("cpu")],
    [Key("net"), Key("ifaces")],
    [Key("disk_io")],
    [Key("journal"), Key("counters")],
    [Key("journal"), Key("lines_seen")],
    [Key("journal"), Key("matched")],
    [Key("uptime")],
    [Key("guests"), Key("llm_ct"), Key("uptime")]
  ]

  datatype Session = Session(frames: seq<Frame>, started: real, pollInterval: real) {
    /** A recording: frames in order, and time between polls. */
    predicate Sound() {
      && frames != [] && pollInterval > 0.0
      && forall i, j :: 0 <= i < j < |frames| ==> frames[i].t <= frames[j].t
    }

    function Offset(i: nat): real
      requires i < |frames|
    {
      frames[i].t - frames[0].t
    }

    function Period(): real
      requires frames != []
    {
      Offset(|frames| - 1) + pollInterval
    }
  }

  // ------------------------------------------------------------------ moment --

  /** bisect_right over the first n offsets. */
  function Bisect(s: Session, n: nat, pos: real): (i: nat)
    requires n <= |s.frames|
    ensures i <= n
  {
    if n == 0 || s.Offset(n - 1) <= pos then n else Bisect(s, n - 1, pos)
  }

  function Pass(s: Session, now: real): int
    requires s.Sound() && s.Period() > 0.0
  {
    (Elapsed(s, now) / s.Period()).Floor
  }

  function Elapsed(s: Session, now: real): real { if now > s.started then now - s.started else 0.0 }

  /** How long k passes take. */
  function Passes(s: Session, k: int): real
    requires s.frames != []
  {
    k as real * s.Period()
  }

  function Pos(s: Session, now: real): real
    requires s.Sound() && s.Period() > 0.0
  {
    Elapsed(s, now) - Passes(s, Pass(s, now))
  }

  datatype Moment = Moment(pass: int, frame: nat)

  function MomentOf(s: Session, now: real): Moment
    requires s.Sound() && s.Period() > 0.0
  {
    var i := Bisect(s, |s.frames|, Pos(s, now));
    Moment(Pass(s, now), if i == 0 then 0 else i - 1)
  }

  lemma PeriodIsPositive(s: Session)
    requires s.Sound()
    ensures s.Period() > 0.0 && s.Offset(0) == 0.0
    ensures forall i :: 0 <= i < |s.frames| ==> 0.0 <= s.Offset(i) < s.Period()
    ensures forall i, j :: 0 <= i <= j < |s.frames| ==> s.Offset(i) <= s.Offset(j)
  {
  }

  lemma {:induction false} BisectSplits(s: Session, n: nat, pos: real)
    requires s.Sound() && n <= |s.frames|
    ensures var i := Bisect(s, n, pos);
            && (forall j :: 0 <= j < i ==> s.Offset(j) <= pos)
            && (forall j :: i <= j < n ==> pos < s.Offset(j))
  {
    PeriodIsPositive(s);
    if n > 0 && pos < s.Offset(n - 1) {
      BisectSplits(s, n - 1, pos);
    }
  }

  lemma PosInPeriod(s: Session, now: real)
    requires s.Sound() && s.Period() > 0.0
    ensures 0.0 <= Pos(s, now) < s.Period() && Pass(s, now) >= 0
  {
    var x, w := Elapsed(s, now), s.Period();
    var q := x / w;
    assert x == q * w;
    assert q >= 0.0;
    Aggregates.FloorBounds(q, q.Floor as real, w, x, q.Floor as real * w);
  }

  /** When a frame of a pass is served from. */
  function StartOf(s: Session, m: Moment): real
    requires s.Sound() && m.frame < |s.frames|
  {
    s.started + Passes(s, m.pass) + s.Offset(m.frame)
  }

  /** A pass is the recording: its frames are as far apart as they were recorded, and the last is shown
      for one poll interval before the next pass begins. */
  lemma PassIsTheRecording(s: Session, k: int, i: nat)
    requires s.Sound() && i < |s.frames|
    ensures StartOf(s, Moment(0, 0)) == s.started
    ensures i + 1 < |s.frames| ==> StartOf(s, Moment(k, i + 1)) - StartOf(s, Moment(k, i)) == s.frames[i + 1].t - s.frames[i].t
    ensures StartOf(s, Moment(k + 1, 0)) - StartOf(s, Moment(k, |s.frames| - 1)) == s.pollInterval
  {
    PassesAddUp(s, k, k);
  }

  predicate UpTo(a: Moment, b: Moment) { a.pass < b.pass || (a.pass == b.pass && a.frame <= b.frame) }

  lemma PassesAddUp(s: Session, k: int, l: int)
    requires s.Sound()
    ensures Passes(s, k + 1) == Passes(s, k) + s.Period()
    ensures k <= l ==> Passes(s, k) <= Passes(s, l)
  {
    PeriodIsPositive(s);
    Aggregates.TimesSum(k as real, 1.0, s.Period());
    assert (k + 1) as real == k as real + 1.0;
    Aggregates.Scale(k as real, l as real, s.Period());
  }

  /** The latest frame at or before now: it has started, and every later one, of this pass or of
      the next, has not. */
  lemma MomentIsLatest(s: Session, now: real)
    requires s.Sound() && s.Period() > 0.0 && now >= s.started
    ensures var m := MomentOf(s, now);
            && m.frame < |s.frames| && m.pass >= 0 && StartOf(s, m) <= now
            && (forall i :: m.frame < i < |s.frames| ==> now < StartOf(s, Moment(m.pass, i)))
            && now < StartOf(s, Moment(m.pass + 1, 0))
  {
    hide Passes, Pass, Bisect;
    PeriodIsPositive(s);
    PosInPeriod(s, now);
    BisectSplits(s, |s.frames|, Pos(s, now));
    PassesAddUp(s, Pass(s, now), 0);
  }

  lemma {:induction false} BisectGrows(s: Session, n: nat, a: real, b: real)
    requires s.Sound() && n <= |s.frames| && a <= b
    ensures Bisect(s, n, a) <= Bisect(s, n, b)
  {
    if n > 0 && b < s.Offset(n - 1) {
      BisectGrows(s, n - 1, a, b);
    }
  }

  /** Time never takes the replay back. */
  lemma MomentIsMonotone(s: Session, a: real, b: real)
    requires s.Sound() && s.Period() > 0.0 && a <= b
    ensures UpTo(MomentOf(s, a), MomentOf(s, b)) && MomentOf(s, b).frame < |s.frames|
  {
    hide Passes, Pass, Bisect;
    PeriodIsPositive(s);
    PosInPeriod(s, a);
    PosInPeriod(s, b);
    BisectSplits(s, |s.frames|, Pos(s, a));
    BisectSplits(s, |s.frames|, Pos(s, b));
    PassesAddUp(s, Pass(s, b), Pass(s, a));
    PassesAddUp(s, Pass(s, b) + 1, Pass(s, a));
    if Pass(s, a) == Pass(s, b) {
      BisectGrows(s, |s.frames|, Pos(s, a), Pos(s, b));
    }
  }

  // ------------------------------------------------------------ what is served --

  /** The value at a path. */
  function At(x: Json, path: Path): Option<Json>
    decreases path
  {
    if path == [] then Some(x)
    else match (x, path[0])
      case (Obj(fields), Key(name)) => if name in fields then At(fields[name], path[1..]) else None
      case (Arr(items), Index(i)) => if i < |items| then At(items[i], path[1..]) else None
      case _ => None
  }

  function LeafAt(x: Json, path: Path): Option<real> {
    match At(x, path)
    case Some(Num(n)) => Some(n)
    case _ => None
  }

  predicate IsTime(path: Path) {
    path != [] && path[|path| - 1].Key? && path[|path| - 1].name in TS_KEYS && path[0] != Key("sel")
  }

  predicate IsCounter(path: Path) { exists i :: 0 <= i < |COUNTERS| && COUNTERS[i] <= path }

  /** The agent's own answer at a frame, {} if there is none. */
  function Own(s: Session, i: nat): Json
    requires i < |s.frames|
  {
    var r := s.frames[i].answers;
    if AGENT in r && r[AGENT].Tree? then r[AGENT].json else Obj(map[])
  }

  /** What a counter gains in one pass, for those that are moved on. */
  function StepOf(s: Session, path: Path): Option<real>
    requires s.frames != []
  {
    var a, b := LeafAt(Own(s, 0), path), LeafAt(Own(s, |s.frames| - 1), path);
    if a.Some? && b.Some? && IsCounter(path) && b.value >= a.value then Some(b.value - a.value) else None
  }

  function OwnMetrics(s: Session, i: nat): map<string, real>
    requires i < |s.frames|
  {
    var r := s.frames[i].answers;
    if METRICS in r && r[METRICS].Metrics? then r[METRICS].counters else map[]
  }

  function MetricStep(s: Session, name: string): Option<real>
    requires s.frames != []
  {
    var a, b := OwnMetrics(s, 0), OwnMetrics(s, |s.frames| - 1);
    if name in a && name in b && b[name] >= a[name] then Some(b[name] - a[name]) else None
  }

  /** What k passes add. */
  function Gained(k: int, step: real): real { Times(k as real, step) }

  function Times(x: real, y: real): real { x * y }

  function ShiftLeaf(s: Session, path: Path, n: real, k: int): real
    requires s.frames != []
  {
    if IsTime(path) then n + (s.started + Passes(s, k) - s.frames[0].t)
    else if k != 0 && StepOf(s, path).Some? then n + Gained(k, StepOf(s, path).value)
    else n
  }

  function Walk(s: Session, x: Json, path: Path, k: int): Json
    requires s.frames != []
    decreases x
  {
    match x
    case Obj(fields) => Obj(map name | name in fields :: Walk(s, fields[name], path + [Key(name)], k))
    case Arr(items) => Arr(seq(|items|, i requires 0 <= i < |items| => Walk(s, items[i], path + [Index(i)], k)))
    case Num(n) => Num(ShiftLeaf(s, path, n, k))
    case Other => Other
  }

  /** A path's last recorded answer at or before frame i. */
  function LastAnswer(s: Session, i: nat, path: string): Option<Body>
    requires i < |s.frames|
  {
    if path in s.frames[i].answers then Some(s.frames[i].answers[path])
    else if i == 0 then None
    else LastAnswer(s, i - 1, path)
  }

  predicate AnsweredLast(s: Session, i: nat, path: string, j: nat)
    requires i < |s.frames|
  {
    j <= i && path in s.frames[j].answers && forall x :: j < x <= i ==> path !in s.frames[x].answers
  }

  /** Plainly: the answer of the last frame, up to this one, that has one. */
  lemma {:induction false} LastAnswerIs(s: Session, i: nat, path: string, j: nat)
    requires i < |s.frames|
    ensures AnsweredLast(s, i, path, j) ==> LastAnswer(s, i, path) == Some(s.frames[j].answers[path])
    ensures (forall x :: 0 <= x <= i ==> path !in s.frames[x].answers) ==> LastAnswer(s, i, path) == None
    decreases i
  {
    if i == 0 {
    } else {
      LastAnswerIs(s, i - 1, path, j);
    }
  }

  function Shift(s: Session, body: Body, k: int): Body
    requires s.frames != []
  {
    match body
    case Tree(json) => Tree(Walk(s, json, [], k))
    case Metrics(counters) =>
      if k == 0 then body
      else Metrics(map name | name in counters :: counters[name] + Gained(k, MetricStep(s, name).Or(0.0)))
    case _ => body
  }

  /** The loop of answer(): back to the last frame that has one. */
  method Answer(s: Session, m: Moment, path: string) returns (r: Option<Body>)
    requires m.frame < |s.frames|
    ensures var found := LastAnswer(s, m.frame, path);
            r == if found.Some? then Some(Shift(s, found.value, m.pass)) else None
  {
    var j := m.frame + 1;
    while j > 0
      invariant 0 <= j <= m.frame + 1
      invariant j > 0 ==> LastAnswer(s, m.frame, path) == LastAnswer(s, j - 1, path)
      invariant j == 0 ==> LastAnswer(s, m.frame, path) == None
    {
      j := j - 1;
      assert LastAnswer(s, m.frame, path) == LastAnswer(s, j, path);
      if path in s.frames[j].answers {
        assert LastAnswer(s, j, path) == Some(s.frames[j].answers[path]);
        return Some(Shift(s, s.frames[j].answers[path], m.pass));
      }
    }
    r := None;
  }

  class ReplayTransport {
    const session: Session
    var at: Option<Moment>

    constructor (session: Session)
      ensures this.session == session && at == None
    {
      this.session, at := session, None;
    }

    /** Every request of one poll is answered from the moment of its first, the agent's. */
    method Handle(now: real, path: string) returns (r: Option<Body>)
      requires session.Sound() && session.Period() > 0.0
      requires at.Some? ==> at.value.frame < |session.frames|
      modifies this
      ensures at == Some(if path == AGENT || old(at).None? then MomentOf(session, now) else old(at).value)
      ensures at.value.frame < |session.frames|
      ensures var found := LastAnswer(session, at.value.frame, path);
              r == if found.Some? then Some(Shift(session, found.value, at.value.pass)) else None
    {
      if path == AGENT || at.None? {
        MomentIsMonotone(session, now, now);
        at := Some(MomentOf(session, now));
      }
      r := Answer(session, at.value, path);
    }
  }

  /** Walking a tree moves each of its leaves by its own path, and changes nothing else. */
  lemma {:induction false} WalkAt(s: Session, x: Json, done: Path, rest: Path, k: int)
    requires s.frames != []
    ensures At(Walk(s, x, done, k), rest)
         == if At(x, rest).Some? then Some(Walk(s, At(x, rest).value, done + rest, k)) else None
    decreases rest
  {
    if rest == [] {
      assert done + rest == done;
    } else {
      assert done + [rest[0]] + rest[1..] == done + rest;
      match (x, rest[0])
      case (Obj(fields), Key(name)) =>
        if name in fields {
          WalkAt(s, fields[name], done + [rest[0]], rest[1..], k);
        }
      case (Arr(items), Index(i)) =>
        if i < |items| {
          WalkAt(s, items[i], done + [rest[0]], rest[1..], k);
        }
      case _ =>
    }
  }

  lemma ServedLeaf(s: Session, x: Json, path: Path, k: int)
    requires s.frames != []
    ensures LeafAt(Walk(s, x, [], k), path)
         == if LeafAt(x, path).Some? then Some(ShiftLeaf(s, path, LeafAt(x, path).value, k)) else None
  {
    WalkAt(s, x, [], path, k);
    assert [] + path == path;
  }

  // ------------------------------------------------------------- no going back --

  /** The agent's number at a path, as served at a time. */
  function Served(s: Session, path: Path, now: real): Option<real>
    requires s.Sound() && s.Period() > 0.0
  {
    var m := MomentOf(s, now);
    if m.frame >= |s.frames| then None
    else
      var found := LastAnswer(s, m.frame, AGENT);
      if found.Some? && found.value.Tree? then LeafAt(Walk(s, found.value.json, [], m.pass), path) else None
  }

  /** Frame i is served at some moment of a pass: the next was recorded later. */
  predicate Shown(s: Session, i: nat)
    requires i < |s.frames|
  {
    i + 1 < |s.frames| ==> s.frames[i].t < s.frames[i + 1].t
  }

  /** A number each frame may hold, moved on by a step a pass, as served at a time. */
  function ServedSeries(s: Session, vals: seq<Option<real>>, step: real, now: real): Option<real>
    requires s.Sound() && s.Period() > 0.0 && |vals| == |s.frames|
  {
    var m := MomentOf(s, now);
    if m.frame >= |vals| || vals[m.frame].None? then None else Some(vals[m.frame].value + Gained(m.pass, step))
  }

  ghost predicate SeriesNeverFalls(s: Session, vals: seq<Option<real>>, step: real)
    requires s.Sound() && s.Period() > 0.0 && |vals| == |s.frames|
  {
    forall a: real, b: real :: a <= b && ServedSeries(s, vals, step, a).Some? && ServedSeries(s, vals, step, b).Some? ==>
      ServedSeries(s, vals, step, a).value <= ServedSeries(s, vals, step, b).value
  }

  /** A frame that is served, with a number. */
  predicate Has(s: Session, vals: seq<Option<real>>, i: nat)
    requires |vals| == |s.frames|
  {
    i < |vals| && Shown(s, i) && vals[i].Some?
  }

  /** Of the numbers served, none is below an earlier one by more than nothing, nor below a later one
      by more than a step. */
  predicate Fits(s: Session, vals: seq<Option<real>>, step: real)
    requires |vals| == |s.frames|
  {
    forall i, j :: 0 <= i <= j < |vals| && Has(s, vals, i) && Has(s, vals, j) ==>
      vals[i].value <= vals[j].value && vals[j].value - vals[i].value <= step
  }

  lemma GainedRises(k: int, l: int, step: real)
    requires k <= l && step >= 0.0
    ensures k < l ==> Gained(k, step) + step <= Gained(l, step)
  {
    hide Times;
    if k < l {
      OnePassMore(k as real, l as real, step);
    }
  }

  lemma OnePassMore(x: real, y: real, step: real)
    requires x + 1.0 <= y && step >= 0.0
    ensures Times(x, step) + step <= Times(y, step)
  {
    var d := y - x - 1.0;
    assert d * step >= 0.0;
    assert d * step == y * step - x * step - step;
  }

  /** What is served is shown, and what is shown is served, in the first pass and in the second. */
  lemma ServedIsShown(s: Session, now: real)
    requires s.Sound() && s.Period() > 0.0
    ensures MomentOf(s, now).frame < |s.frames| && MomentOf(s, now).pass >= 0 && Shown(s, MomentOf(s, now).frame)
  {
    hide Bisect, Pass, Passes;
    PeriodIsPositive(s);
    PosInPeriod(s, now);
    BisectSplits(s, |s.frames|, Pos(s, now));
    var i := MomentOf(s, now).frame;
    if i + 1 < |s.frames| {
      assert s.Offset(i) <= Pos(s, now) < s.Offset(i + 1);
    }
  }

  lemma ShownIsServed(s: Session, i: nat)
    requires s.Sound() && s.Period() > 0.0 && i < |s.frames| && Shown(s, i)
    ensures MomentOf(s, s.started + s.Offset(i)) == Moment(0, i)
    ensures MomentOf(s, s.started + s.Period() + s.Offset(i)) == Moment(1, i)
    ensures s.started <= s.started + s.Offset(i) < s.started + s.Period()
  {
    PeriodIsPositive(s);
    var x, w := s.Offset(i), s.Period();
    assert Elapsed(s, s.started + x) == x && Elapsed(s, s.started + w + x) == w + x;
    SmallQuotient(x, w);
    assert Pass(s, s.started + x) == 0 && Pass(s, s.started + w + x) == 1;
    assert Passes(s, 0) == 0.0 && Passes(s, 1) == w;
    hide Pass, Passes, Bisect;
    assert Pos(s, s.started + x) == x && Pos(s, s.started + w + x) == x;
    BisectAtFrame(s, i);
  }

  lemma BisectAtFrame(s: Session, i: nat)
    requires s.Sound() && i < |s.frames| && Shown(s, i)
    ensures Bisect(s, |s.frames|, s.Offset(i)) == i + 1
  {
    hide Bisect;
    PeriodIsPositive(s);
    BisectSplits(s, |s.frames|, s.Offset(i));
    var n := Bisect(s, |s.frames|, s.Offset(i));
    if i + 1 < |s.frames| {
      assert s.Offset(i) < s.Offset(i + 1);
    }
    assert n >= i + 1;
  }

  lemma SmallQuotient(x: real, w: real)
    requires 0.0 <= x < w
    ensures (x / w).Floor == 0 && ((w + x) / w).Floor == 1
  {
    var q := x / w;
    assert q * w == x;
    if q >= 1.0 {
      Aggregates.Scale(1.0, q, w);
    }
    if q < 0.0 {
      Aggregates.Scale(q, 0.0, w);
    }
    assert 0.0 <= q < 1.0;
    Aggregates.TimesSum(1.0, q, w);
    assert (w + x) / w == 1.0 + q by { Same((w + x) / w, 1.0 + q, w); }
  }

  lemma Same(a: real, b: real, w: real)
    requires w > 0.0 && a * w == b * w
    ensures a == b
  {
    Aggregates.Scale(a, b, w);
    Aggregates.Scale(b, a, w);
  }

  lemma FitsNeverFalls(s: Session, vals: seq<Option<real>>, step: real, a: real, b: real)
    requires s.Sound() && s.Period() > 0.0 && |vals| == |s.frames| && step >= 0.0 && Fits(s, vals, step) && a <= b
    requires ServedSeries(s, vals, step, a).Some? && ServedSeries(s, vals, step, b).Some?
    ensures ServedSeries(s, vals, step, a).value <= ServedSeries(s, vals, step, b).value
  {
    hide MomentOf, Gained, Shown;
    var x, y := MomentOf(s, a), MomentOf(s, b);
    ServedIsShown(s, a);
    ServedIsShown(s, b);
    MomentIsMonotone(s, a, b);
    GainedRises(x.pass, y.pass, step);
    assert Has(s, vals, x.frame) && Has(s, vals, y.frame);
    assert x.frame <= y.frame || y.frame <= x.frame;
  }

  /** The main result on the replay: what a recording holds never falls back, in any number of passes,
      if and only if the numbers it serves rise within a pass and span no more than a step. */
  lemma SeriesNeverFallsIff(s: Session, vals: seq<Option<real>>, step: real)
    requires s.Sound() && s.Period() > 0.0 && |vals| == |s.frames| && step >= 0.0
    ensures SeriesNeverFalls(s, vals, step) <==> Fits(s, vals, step)
  {
    hide MomentOf, Shown;
    if Fits(s, vals, step) {
      forall a: real, b: real | a <= b && ServedSeries(s, vals, step, a).Some? && ServedSeries(s, vals, step, b).Some?
        ensures ServedSeries(s, vals, step, a).value <= ServedSeries(s, vals, step, b).value
      {
        FitsNeverFalls(s, vals, step, a, b);
      }
    } else {
      var i, j :| 0 <= i <= j < |vals| && Has(s, vals, i) && Has(s, vals, j) &&
        !(vals[i].value <= vals[j].value && vals[j].value - vals[i].value <= step);
      var a, b := s.started + s.Offset(i), s.started + s.Offset(j);
      var c := s.started + s.Period() + s.Offset(i);
      ShownIsServed(s, i);
      ShownIsServed(s, j);
      PeriodIsPositive(s);
      NothingGained(step);
      assert ServedSeries(s, vals, step, a) == vals[i] && ServedSeries(s, vals, step, b) == vals[j];
      assert ServedSeries(s, vals, step, c) == Some(vals[i].value + step);
    }
  }

  lemma NothingGained(step: real)
    ensures Gained(0, step) == 0.0 && Gained(1, step) == step && forall k :: Gained(k, 0.0) == 0.0
  {
  }

  // ------------------------------------------------------------- the agent's numbers --

  /** What each frame's answer holds at a path. */
  function ValueAt(s: Session, i: nat, path: Path): Option<real>
    requires i < |s.frames|
  {
    var found := LastAnswer(s, i, AGENT);
    if found.Some? && found.value.Tree? then LeafAt(found.value.json, path) else None
  }

  function Values(s: Session, path: Path): seq<Option<real>> {
    seq(|s.frames|, i requires 0 <= i < |s.frames| => ValueAt(s, i, path))
  }

  /** What a pass adds to a number: its period to a time, its step to a counter that has one. */
  function GainOf(s: Session, path: Path): real
    requires s.frames != []
  {
    if IsTime(path) then s.Period() else StepOf(s, path).Or(0.0)
  }

  ghost predicate NeverFalls(s: Session, path: Path)
    requires s.Sound() && s.Period() > 0.0
  {
    forall a: real, b: real :: a <= b && Served(s, path, a).Some? && Served(s, path, b).Some? ==>
      Served(s, path, a).value <= Served(s, path, b).value
  }

  lemma ServedIs(s: Session, path: Path, now: real)
    requires s.Sound() && s.Period() > 0.0
    ensures var series := ServedSeries(s, Values(s, path), GainOf(s, path), now);
            Served(s, path, now) == if series.None? then None
                                    else Some(series.value + if IsTime(path) then s.started - s.frames[0].t else 0.0)
  {
    hide MomentOf, LastAnswer, ShiftLeaf, GainOf, IsTime;
    ServedIsShown(s, now);
    var m := MomentOf(s, now);
    var found := LastAnswer(s, m.frame, AGENT);
    if found.Some? && found.value.Tree? {
      ServedLeaf(s, found.value.json, path, m.pass);
      if LeafAt(found.value.json, path).Some? {
        ShiftIsGain(s, path, LeafAt(found.value.json, path).value, m.pass);
      }
    }
  }

  lemma ShiftIsGain(s: Session, path: Path, n: real, k: int)
    requires s.frames != []
    ensures ShiftLeaf(s, path, n, k)
         == n + Gained(k, GainOf(s, path)) + if IsTime(path) then s.started - s.frames[0].t else 0.0
  {
    hide StepOf, IsTime;
    NothingGained(StepOf(s, path).Or(0.0));
  }

  /** A recorded time is as long before its frame is served as it was before the frame was recorded. */
  lemma TimesKeepTheirDistance(s: Session, path: Path, now: real)
    requires s.Sound() && s.Period() > 0.0 && IsTime(path) && Served(s, path, now).Some?
    ensures var m := MomentOf(s, now);
            && m.frame < |s.frames| && ValueAt(s, m.frame, path).Some?
            && Served(s, path, now).value == StartOf(s, m) - (s.frames[m.frame].t - ValueAt(s, m.frame, path).value)
  {
    hide MomentOf, LastAnswer, IsTime, Passes;
    ServedIsShown(s, now);
    var m := MomentOf(s, now);
    var json := LastAnswer(s, m.frame, AGENT).value.json;
    ServedLeaf(s, json, path, m.pass);
  }

  /** A counter with a step goes on in the next pass where it stood at the end of this one, and keeps
      its distances within the pass; so do the server's own. */
  lemma CountersGoOn(s: Session, path: Path, k: nat, a: real, b: real)
    requires s.frames != [] && StepOf(s, path).Some? && !IsTime(path)
    ensures ShiftLeaf(s, path, LeafAt(Own(s, 0), path).value, k + 1)
         == ShiftLeaf(s, path, LeafAt(Own(s, |s.frames| - 1), path).value, k)
    ensures ShiftLeaf(s, path, a, k) - ShiftLeaf(s, path, b, k) == a - b && ShiftLeaf(s, path, a, 0) == a
  {
    hide IsTime, Own, IsCounter, LeafAt;
    OnePassAdds(k, StepOf(s, path).value);
  }

  lemma OnePassAdds(k: nat, step: real)
    ensures Gained(k + 1, step) == Gained(k, step) + step && Gained(0, step) == 0.0
  {
    assert (k + 1) as real == k as real + 1.0;
    Aggregates.TimesSum(k as real, 1.0, step);
  }

  /** For any number anywhere in the agent's answers: it never falls back if and only if what is served
      of it rises within a pass and spans no more than a pass adds. */
  lemma NeverFallsIff(s: Session, path: Path)
    requires s.Sound() && s.Period() > 0.0
    ensures NeverFalls(s, path) <==> Fits(s, Values(s, path), GainOf(s, path))
  {
    hide Served, ServedSeries, Fits, Values, GainOf, IsTime;
    var vals, step := Values(s, path), GainOf(s, path);
    GainIsNotNegative(s, path);
    SeriesNeverFallsIff(s, vals, step);
    forall now: real ensures Served(s, path, now).Some? <==> ServedSeries(s, vals, step, now).Some? { ServedIs(s, path, now); }
    forall a: real, b: real | a <= b && ServedSeries(s, vals, step, a).Some? && ServedSeries(s, vals, step, b).Some?
      ensures ServedSeries(s, vals, step, a).value <= ServedSeries(s, vals, step, b).value
         <==> Served(s, path, a).value <= Served(s, path, b).value
    {
      ServedIs(s, path, a);
      ServedIs(s, path, b);
    }
  }

  lemma GainIsNotNegative(s: Session, path: Path)
    requires s.Sound() && s.Period() > 0.0
    ensures GainOf(s, path) >= 0.0 && |Values(s, path)| == |s.frames|
  {
  }

  /** The numbers that are there never fall within the pass. */
  predicate Rising(vals: seq<Option<real>>) {
    forall i, j :: 0 <= i <= j < |vals| && vals[i].Some? && vals[j].Some? ==> vals[i].value <= vals[j].value
  }

  /** No two of the numbers served differ. */
  predicate Constant(s: Session, vals: seq<Option<real>>)
    requires |vals| == |s.frames|
  {
    forall i, j :: 0 <= i <= j < |vals| && Has(s, vals, i) && Has(s, vals, j) ==> vals[i] == vals[j]
  }

  /** A recorded time that does not fall within the pass never goes back, in any number of passes,
      exactly when what a pass serves spans no more of it than a pass takes. */
  lemma TimesNeverFallIff(s: Session, path: Path)
    requires s.Sound() && s.Period() > 0.0 && IsTime(path) && Rising(Values(s, path))
    ensures var vals := Values(s, path);
            NeverFalls(s, path) <==>
            (forall i, j :: 0 <= i <= j < |vals| && Has(s, vals, i) && Has(s, vals, j) ==>
               vals[j].value - vals[i].value <= s.Period())
  {
    hide Values, IsTime, Shown, NeverFalls;
    NeverFallsIff(s, path);
    GainIsNotNegative(s, path);
  }

  /** A counter that does not fall within the pass never falls back, in any number of passes, exactly
      when its step is known - the agent's own answers of the first and the last frame hold it - or
      what is served of it never moves. Without a step it falls back at each new pass. */
  lemma CountersNeverFallIff(s: Session, path: Path)
    requires s.Sound() && s.Period() > 0.0 && !IsTime(path) && Rising(Values(s, path))
    ensures NeverFalls(s, path) <==> StepOf(s, path).Some? || Constant(s, Values(s, path))
  {
    hide IsTime, Shown, NeverFalls, At, Values;
    var vals := Values(s, path);
    NeverFallsIff(s, path);
    if StepOf(s, path).Some? {
      StepSpans(s, path);
    }
  }

  lemma StepSpans(s: Session, path: Path)
    requires s.Sound() && StepOf(s, path).Some? && Rising(Values(s, path))
    ensures var vals := Values(s, path);
            forall i, j :: 0 <= i <= j < |vals| && vals[i].Some? && vals[j].Some? ==>
              vals[j].value - vals[i].value <= StepOf(s, path).value
  {
    hide At, IsCounter;
    NotEmptyAt(path);
    var vals, n := Values(s, path), |s.frames|;
    assert vals[0] == LeafAt(Own(s, 0), path) && vals[n - 1] == LeafAt(Own(s, n - 1), path);
  }

  lemma NotEmptyAt(path: Path)
    ensures LeafAt(Obj(map[]), path) == None
  {
  }

  /** Which numbers have a step. */
  lemma StepIsKnownIff(s: Session, path: Path)
    requires s.Sound() && Rising(Values(s, path))
    ensures StepOf(s, path).Some? <==>
            IsCounter(path) && LeafAt(Own(s, 0), path).Some? && LeafAt(Own(s, |s.frames| - 1), path).Some?
  {
    hide At, IsCounter;
    NotEmptyAt(path);
    var vals, n := Values(s, path), |s.frames|;
    if LeafAt(Own(s, 0), path).Some? && LeafAt(Own(s, n - 1), path).Some? {
      assert vals[0] == LeafAt(Own(s, 0), path) && vals[n - 1] == LeafAt(Own(s, n - 1), path);
    }
  }

  // ------------------------------------------------------------ two recordings --

  const UPTIME: Path := [Key("uptime")]

  function Booted(n: real): Body { Tree(Obj(map["uptime" := Num(n)])) }

  /** Three polls, two seconds apart. */
  function ThreeFrames(a: Body, b: Body, c: Body): Session {
    Session([Frame(0.0, map[AGENT := a]), Frame(2.0, map[AGENT := b]), Frame(4.0, map[AGENT := c])], 100.0, 2.0)
  }

  lemma {:induction false} UptimeOf(n: real)
    ensures LeafAt(Obj(map["uptime" := Num(n)]), UPTIME) == Some(n)
  {
    assert UPTIME[1..] == [];
  }

  lemma {:induction false} UptimeIsACounter()
    ensures IsCounter(UPTIME) && !IsTime(UPTIME)
  {
    assert COUNTERS[6] == UPTIME;
    assert "uptime" !in TS_KEYS;
  }

  lemma ThreeValues(a: Body, b: Body, c: Body)
    ensures var s := ThreeFrames(a, b, c);
            && s.Sound() && s.Period() == 6.0
            && LastAnswer(s, 0, AGENT) == Some(a) && LastAnswer(s, 1, AGENT) == Some(b) && LastAnswer(s, 2, AGENT) == Some(c)
            && Shown(s, 0) && Shown(s, 1) && Shown(s, 2)
  {
  }

  /** The last frame holds the agent's own answer and the counter moves, but the first lacks it: no
      step is known, and it falls back. */
  lemma {:induction false} FirstFrameWithout(first: Body)
    requires first == Failed || first == Tree(Obj(map[]))
    ensures var s := ThreeFrames(first, Booted(10.0), Booted(12.0));
            s.Sound() && s.Period() > 0.0 && Rising(Values(s, UPTIME)) && !NeverFalls(s, UPTIME)
  {
    var s := ThreeFrames(first, Booted(10.0), Booted(12.0));
    ThreeValues(first, Booted(10.0), Booted(12.0));
    UptimeIsACounter();
    UptimeOf(10.0);
    UptimeOf(12.0);
    assert UPTIME != [] && UPTIME[0] == Key("uptime");
    var vals := Values(s, UPTIME);
    assert vals[0] == None && vals[1] == Some(10.0) && vals[2] == Some(12.0);
    assert Has(s, vals, 1) && Has(s, vals, 2);
    StepIsKnownIff(s, UPTIME);
    CountersNeverFallIff(s, UPTIME);
  }

  /** The agent's last answer failed. */
  lemma {:induction false} LastFrameFailed()
    ensures var s := ThreeFrames(Booted(8.0), Booted(10.0), Failed);
            s.Sound() && s.Period() > 0.0 && Rising(Values(s, UPTIME)) && !NeverFalls(s, UPTIME)
  {
    var s := ThreeFrames(Booted(8.0), Booted(10.0), Failed);
    ThreeValues(Booted(8.0), Booted(10.0), Failed);
    UptimeIsACounter();
    UptimeOf(8.0);
    UptimeOf(10.0);
    var vals := Values(s, UPTIME);
    assert vals[0] == Some(8.0) && vals[1] == Some(10.0) && vals[2] == None;
    assert Has(s, vals, 0) && Has(s, vals, 1);
    NotEmptyAt(UPTIME);
    StepIsKnownIff(s, UPTIME);
    CountersNeverFallIff(s, UPTIME);
  }

  // ------------------------------------------------------------ /metrics counters --

  /** The server's own counter, by name, as each frame's answer holds it. */
  function MetricAt(s: Session, i: nat, name: string): Option<real>
    requires i < |s.frames|
  {
    var found := LastAnswer(s, i, METRICS);
    if found.Some? && found.value.Metrics? && name in found.value.counters then Some(found.value.counters[name]) else None
  }

  function MetricValues(s: Session, name: string): seq<Option<real>> {
    seq(|s.frames|, i requires 0 <= i < |s.frames| => MetricAt(s, i, name))
  }

  /** As served at a time. */
  function ServedMetric(s: Session, name: string, now: real): Option<real>
    requires s.Sound() && s.Period() > 0.0
  {
    var m := MomentOf(s, now);
    if m.frame >= |s.frames| then None
    else
      var found := LastAnswer(s, m.frame, METRICS);
      if found.None? then None
      else
        match Shift(s, found.value, m.pass)
        case Metrics(counters) => if name in counters then Some(counters[name]) else None
        case _ => None
  }

  ghost predicate MetricNeverFalls(s: Session, name: string)
    requires s.Sound() && s.Period() > 0.0
  {
    forall a: real, b: real :: a <= b && ServedMetric(s, name, a).Some? && ServedMetric(s, name, b).Some? ==>
      ServedMetric(s, name, a).value <= ServedMetric(s, name, b).value
  }

  lemma ServedMetricIs(s: Session, name: string, now: real)
    requires s.Sound() && s.Period() > 0.0
    ensures ServedMetric(s, name, now) == ServedSeries(s, MetricValues(s, name), MetricStep(s, name).Or(0.0), now)
  {
    hide MomentOf, LastAnswer, MetricStep, Gained;
    ServedIsShown(s, now);
    NothingGained(MetricStep(s, name).Or(0.0));
  }

  lemma MetricStepSpans(s: Session, name: string)
    requires s.Sound() && Rising(MetricValues(s, name)) && MetricStep(s, name).Some?
    ensures var vals := MetricValues(s, name);
            MetricStep(s, name).value >= 0.0 &&
            forall i, j :: 0 <= i <= j < |vals| && vals[i].Some? && vals[j].Some? ==>
              vals[j].value - vals[i].value <= MetricStep(s, name).value
  {
    var vals, n := MetricValues(s, name), |s.frames|;
    assert vals[0] == Some(OwnMetrics(s, 0)[name]) && vals[n - 1] == Some(OwnMetrics(s, n - 1)[name]);
  }

  lemma MetricsGoOn(s: Session, name: string, k: nat)
    requires s.frames != [] && MetricStep(s, name).Some?
    ensures var first, last := Shift(s, Metrics(OwnMetrics(s, 0)), k + 1), Shift(s, Metrics(OwnMetrics(s, |s.frames| - 1)), k);
            && first.Metrics? && last.Metrics? && name in first.counters && name in last.counters
            && first.counters[name] == last.counters[name]
  {
    hide OwnMetrics, Gained;
    OnePassAdds(k, MetricStep(s, name).value);
  }

  /** The same for the server's own counters. */
  lemma MetricsNeverFallIff(s: Session, name: string)
    requires s.Sound() && s.Period() > 0.0 && Rising(MetricValues(s, name))
    ensures MetricNeverFalls(s, name) <==> MetricStep(s, name).Some? || Constant(s, MetricValues(s, name))
  {
    hide ServedMetric, ServedSeries, MetricStep, Shown, MetricValues;
    var vals, step := MetricValues(s, name), MetricStep(s, name).Or(0.0);
    AsManyMetrics(s, name);
    if MetricStep(s, name).Some? {
      MetricStepSpans(s, name);
    }
    SeriesNeverFallsIff(s, vals, step);
    forall now: real ensures ServedMetric(s, name, now) == ServedSeries(s, vals, step, now) { ServedMetricIs(s, name, now); }
  }

  lemma AsManyMetrics(s: Session, name: string)
    ensures |MetricValues(s, name)| == |s.frames|
  {
  }
}
