/** The learned decode baseline and the slow-decode alert (app/inferenceinquire/store.py,
    decode_baseline; monitor.py, _track_model; rules.py, slow_decode). */
module Baseline {

  import opened Basics

  const MIN_SAMPLES := 12
  const WINDOW := 300
  const MIN_TOKENS := 24

  datatype Config = Config(slowFraction: real, coldTps: real, runToAlert: int) {
    /** What counts as too slow against a norm. */
    function Bar(norm: real): real { norm * slowFraction }
  }

  // ------------------------------------------------------------------ median --

  predicate Ascending(s: seq<real>) { forall i, j :: 0 <= i < j < |s| ==> s[i] <= s[j] }

  lemma Prepend(x: real, s: seq<real>)
    requires Ascending(s) && forall y :: y in s ==> x <= y
    ensures Ascending([x] + s)
  {
    var r := [x] + s;
    forall i, j | 0 <= i < j < |r| ensures r[i] <= r[j] {
      assert r[j] == s[j - 1] && s[j - 1] in s;
      assert i > 0 ==> r[i] == s[i - 1];
    }
  }

  lemma HeadIsLeast(s: seq<real>)
    requires Ascending(s) && s != []
    ensures forall y :: y in s ==> s[0] <= y
  {
  }

  function Insert(x: real, s: seq<real>): (r: seq<real>)
    requires Ascending(s)
    ensures |r| == |s| + 1 && Ascending(r)
    ensures forall y :: y in r ==> y == x || y in s
  {
    if s == [] then [x]
    else
      HeadIsLeast(s);
      if x <= s[0] then
        Prepend(x, s);
        [x] + s
      else
        var rest := Insert(x, s[1..]);
        assert forall y :: y in s[1..] ==> y in s;
        Prepend(s[0], rest);
        [s[0]] + rest
  }

  function Sort(s: seq<real>): (r: seq<real>)
    ensures |r| == |s| && Ascending(r)
  {
    if s == [] then [] else Insert(s[0], Sort(s[1..]))
  }

  /** The middle value, or the mean of the middle two. */
  function Median(vals: seq<real>): real
    requires vals != []
  {
    var s, n := Sort(vals), |vals|;
    if n % 2 == 1 then s[n / 2] else (s[n / 2 - 1] + s[n / 2]) / 2.0
  }

  function CountIn(s: seq<real>, lo: real, hi: real): nat {
    if s == [] then 0 else (if lo <= s[0] <= hi then 1 else 0) + CountIn(s[1..], lo, hi)
  }

  lemma {:induction false} InsertCounts(x: real, s: seq<real>, lo: real, hi: real)
    requires Ascending(s)
    ensures CountIn(Insert(x, s), lo, hi) == (if lo <= x <= hi then 1 else 0) + CountIn(s, lo, hi)
    decreases |s|
  {
    if s != [] && !(x <= s[0]) {
      InsertCounts(x, s[1..], lo, hi);
    }
  }

  lemma {:induction false} SortCounts(s: seq<real>, lo: real, hi: real)
    ensures CountIn(Sort(s), lo, hi) == CountIn(s, lo, hi)
    decreases |s|
  {
    if s == [] {
    } else {
      SortCounts(s[1..], lo, hi);
      InsertCounts(s[0], Sort(s[1..]), lo, hi);
    }
  }

  lemma {:induction false} CountSplits(a: seq<real>, b: seq<real>, lo: real, hi: real)
    ensures CountIn(a + b, lo, hi) == CountIn(a, lo, hi) + CountIn(b, lo, hi)
    decreases |a|
  {
    if a == [] {
      assert a + b == b;
    } else {
      assert (a + b)[1..] == a[1..] + b;
      CountSplits(a[1..], b, lo, hi);
    }
  }

  lemma {:induction false} CountAtMost(s: seq<real>, lo: real, hi: real)
    ensures CountIn(s, lo, hi) <= |s|
    ensures (forall i :: 0 <= i < |s| ==> !(lo <= s[i] <= hi)) ==> CountIn(s, lo, hi) == 0
    decreases |s|
  {
    if s == [] {
    } else {
      CountAtMost(s[1..], lo, hi);
    }
  }

  /** A value of a sorted sequence that lies outside the range takes its whole side with it. */
  lemma SideOutside(s: seq<real>, i: nat, lo: real, hi: real)
    requires Ascending(s) && i < |s|
    ensures s[i] < lo ==> CountIn(s, lo, hi) <= |s| - i - 1
    ensures s[i] > hi ==> CountIn(s, lo, hi) <= i
  {
    assert s == s[..i + 1] + s[i + 1..] && s == s[..i] + s[i..];
    CountSplits(s[..i + 1], s[i + 1..], lo, hi);
    CountSplits(s[..i], s[i..], lo, hi);
    CountAtMost(s[..i + 1], lo, hi);
    CountAtMost(s[i + 1..], lo, hi);
    CountAtMost(s[..i], lo, hi);
    CountAtMost(s[i..], lo, hi);
  }

  predicate Majority(vals: seq<real>, lo: real, hi: real) { 2 * CountIn(vals, lo, hi) > |vals| }

  /** The median lies where more than half of the values lie. */
  lemma MedianFollowsMajority(vals: seq<real>, lo: real, hi: real)
    requires Majority(vals, lo, hi)
    ensures vals != [] && lo <= Median(vals) <= hi
  {
    var s, n := Sort(vals), |vals|;
    SortCounts(vals, lo, hi);
    CountAtMost(vals, lo, hi);
    SideOutside(s, n / 2, lo, hi);
    if n % 2 == 0 {
      SideOutside(s, n / 2 - 1, lo, hi);
    }
  }

  /** Half of them are not enough. */
  lemma HalfIsNotEnough()
    ensures var vals := [2.0, 10.0];
            2 * CountIn(vals, 10.0, 10.0) == |vals| && Median(vals) == 6.0
  {
    assert Sort([10.0]) == [10.0] by { assert Sort([]) == []; }
    assert [2.0, 10.0][1..] == [10.0];
    assert Sort([2.0, 10.0]) == [2.0, 10.0];
    assert CountIn([10.0], 10.0, 10.0) == 1;
  }

  // ------------------------------------------------------------ observations --

  datatype Obs = Obs(model: string, tps: real)

  function OfModel(obs: seq<Obs>, model: string): seq<real> {
    if obs == [] then []
    else
      var before, o := OfModel(obs[..|obs| - 1], model), obs[|obs| - 1];
      if o.model == model then before + [o.tps] else before
  }

  function LastOf(s: seq<real>): seq<real> { if |s| <= WINDOW then s else s[|s| - WINDOW..] }

  function WindowOf(obs: seq<Obs>, model: string): seq<real> { LastOf(OfModel(obs, model)) }

  function BaselineOf(obs: seq<Obs>, model: string): Option<real> {
    var vals := WindowOf(obs, model);
    if |vals| < MIN_SAMPLES then None else Some(Median(vals))
  }

  /** What a poll carries: most polls carry no decode rate. */
  datatype Poll = Poll(model: Option<string>, tps: Option<real>, tokens: int) {
    predicate Observes() { tps.Some? && tokens >= MIN_TOKENS }
  }

  datatype Level = Serious | Critical

  /** The rule's memory in the key-value table, and the table of observations. */
  datatype State = State(obs: seq<Obs>, run: nat, last: Option<(real, Option<real>)>)

  function Learnt(obs: seq<Obs>, p: Poll): seq<Obs> {
    if p.Observes() && p.model.Some? then obs + [Obs(p.model.value, p.tps.value)] else obs
  }

  function BaseFor(obs: seq<Obs>, p: Poll): Option<real> {
    if p.model.Some? then BaselineOf(obs, p.model.value) else None
  }

  /** A baseline of zero is taken for none. */
  predicate Known(base: Option<real>) { base.Some? && base.value != 0.0 }

  predicate TooSlow(k: Config, d: real, base: Option<real>) {
    if Known(base) then d < k.Bar(base.value) else d < k.coldTps
  }

  function Next(k: Config, s: State, p: Poll): State {
    var obs := Learnt(s.obs, p);
    if !p.Observes() then s.(obs := obs)
    else
      var base := BaseFor(obs, p);
      State(obs, if TooSlow(k, p.tps.value, base) then s.run + 1 else 0, Some((p.tps.value, base)))
  }

  function AlertOf(k: Config, s: State): Option<Level> {
    if s.run < k.runToAlert || s.last.None? then None
    else if Known(s.last.value.1) then Some(Critical) else Some(Serious)
  }

  const START := State([], 0, None)

  function After(k: Config, polls: seq<Poll>): State {
    if polls == [] then START else Next(k, After(k, polls[..|polls| - 1]), polls[|polls| - 1])
  }

  class Judge {
    const k: Config
    var obs: seq<Obs>
    var run: nat
    var last: Option<(real, Option<real>)>

    constructor (k: Config)
      ensures this.k == k && Now() == START
    {
      this.k, obs, run, last := k, [], 0, None;
    }

    function Now(): State
      reads this
    {
      State(obs, run, last)
    }

    /** The baseline: the newest observations of the model, and their median. */
    method DecodeBaseline(model: string) returns (base: Option<real>)
      ensures base == BaselineOf(obs, model)
    {
      var vals: seq<real> := [];
      var i := |obs|;
      assert obs[..i] == obs;
      while i > 0 && |vals| < WINDOW
        invariant 0 <= i <= |obs| && |vals| <= WINDOW
        invariant OfModel(obs, model) == OfModel(obs[..i], model) + vals
      {
        assert obs[..i][..i - 1] == obs[..i - 1];
        i := i - 1;
        if obs[i].model == model {
          vals := [obs[i].tps] + vals;
        }
      }
      assert vals == WindowOf(obs, model) by {
        if i == 0 {
          assert OfModel(obs, model) == vals;
        }
      }
      base := if |vals| < MIN_SAMPLES then None else Some(Median(vals));
    }

    /** One poll: learn, then judge. */
    method SlowDecode(p: Poll) returns (alert: Option<Level>)
      modifies this`obs, this`run, this`last
      ensures Now() == Next(k, old(Now()), p)
      ensures alert == AlertOf(k, Now())
    {
      if p.Observes() && p.model.Some? {
        obs := obs + [Obs(p.model.value, p.tps.value)];
      }
      var base: Option<real> := None;
      if p.model.Some? {
        base := DecodeBaseline(p.model.value);
      }
      if p.Observes() {
        var tooSlow := if Known(base) then p.tps.value < k.Bar(base.value) else p.tps.value < k.coldTps;
        run := if tooSlow then run + 1 else 0;
        last := Some((p.tps.value, base));
      }
      if run < k.runToAlert || last.None? {
        return None;
      }
      alert := if Known(last.value.1) then Some(Critical) else Some(Serious);
    }
  }

  // ----------------------------------------------------------------- history --

  /** Whether each observation was too slow, in order; polls without one leave no trace. */
  function Flags(k: Config, polls: seq<Poll>): seq<bool> {
    if polls == [] then []
    else
      var front, p := polls[..|polls| - 1], polls[|polls| - 1];
      if !p.Observes() then Flags(k, front)
      else Flags(k, front) + [TooSlow(k, p.tps.value, BaseFor(After(k, polls).obs, p))]
  }

  predicate EndsSlow(flags: seq<bool>, n: nat) {
    n <= |flags| && forall i :: |flags| - n <= i < |flags| ==> flags[i]
  }

  lemma {:induction false} RunCountsFlags(k: Config, polls: seq<Poll>)
    ensures var run, flags := After(k, polls).run, Flags(k, polls);
            && EndsSlow(flags, run)
            && (run < |flags| ==> !flags[|flags| - run - 1])
            && (After(k, polls).last.Some? <==> flags != [])
  {
    if polls == [] {
    } else {
      RunCountsFlags(k, polls[..|polls| - 1]);
    }
  }

  /** The alert is up exactly when the last runToAlert observations were all too slow, however many
      polls without an observation lie among them. */
  lemma AlertIffRunOfSlow(k: Config, polls: seq<Poll>)
    requires k.runToAlert >= 1
    ensures AlertOf(k, After(k, polls)).Some? <==> EndsSlow(Flags(k, polls), k.runToAlert)
  {
    RunCountsFlags(k, polls);
  }

  /** Once up, it stays until an observation that is not too slow, and goes with that one. */
  lemma StaysUntilNotSlow(k: Config, polls: seq<Poll>, p: Poll)
    requires k.runToAlert >= 1 && AlertOf(k, After(k, polls)).Some?
    ensures AlertOf(k, After(k, polls + [p])).None? <==>
            p.Observes() && !TooSlow(k, p.tps.value, BaseFor(Learnt(After(k, polls).obs, p), p))
  {
    assert (polls + [p])[..|polls|] == polls;
  }

  /** An observation that comes while most of its model's window, itself included, lies in [lo, hi],
      and that is slow even against lo. */
  predicate SlowAgainst(k: Config, s: State, p: Poll, lo: real, hi: real) {
    && p.Observes() && p.model.Some?
    && var w := WindowOf(Learnt(s.obs, p), p.model.value);
       |w| >= MIN_SAMPLES && Majority(w, lo, hi) && p.tps.value < k.Bar(lo)
  }

  /** From poll i on, each poll carries such an observation or none; n of them do. */
  predicate SlowSince(k: Config, polls: seq<Poll>, i: nat, n: nat, lo: real, hi: real)
    requires i <= |polls|
    decreases |polls|
  {
    if |polls| == i then n == 0
    else
      var front, p := polls[..|polls| - 1], polls[|polls| - 1];
      if !p.Observes() then SlowSince(k, front, i, n, lo, hi)
      else n > 0 && SlowAgainst(k, After(k, front), p, lo, hi) && SlowSince(k, front, i, n - 1, lo, hi)
  }

  lemma SlowIsTooSlow(k: Config, s: State, p: Poll, lo: real, hi: real)
    requires SlowAgainst(k, s, p, lo, hi) && lo > 0.0 && k.slowFraction >= 0.0
    ensures var base := BaseFor(Learnt(s.obs, p), p); Known(base) && lo <= base.value <= hi && TooSlow(k, p.tps.value, base)
  {
    hide WindowOf, Median, Majority, Learnt, Config.Bar;
    var w := WindowOf(Learnt(s.obs, p), p.model.value);
    MedianFollowsMajority(w, lo, hi);
    BarGrows(k, lo, Median(w));
  }

  lemma BarGrows(k: Config, a: real, b: real)
    requires a <= b && k.slowFraction >= 0.0
    ensures k.Bar(a) <= k.Bar(b)
  {
    var d := b - a;
    assert d * k.slowFraction >= 0.0;
    assert (a + d) * k.slowFraction == a * k.slowFraction + d * k.slowFraction;
    assert a + d == b;
  }

  lemma {:induction false} SlowSinceRuns(k: Config, polls: seq<Poll>, i: nat, n: nat, lo: real, hi: real)
    requires i <= |polls| && lo > 0.0 && k.slowFraction >= 0.0 && SlowSince(k, polls, i, n, lo, hi)
    ensures var s := After(k, polls); s.run >= n && (n > 0 ==> s.last.Some? && Known(s.last.value.1))
    decreases |polls|
  {
    if |polls| > i {
      var front, p := polls[..|polls| - 1], polls[|polls| - 1];
      if p.Observes() {
        SlowSinceRuns(k, front, i, n - 1, lo, hi);
        SlowIsTooSlow(k, After(k, front), p, lo, hi);
      } else {
        SlowSinceRuns(k, front, i, n, lo, hi);
      }
    }
  }

  /** The main result: a slow minority cannot pull the baseline down to meet it. While most of the
      window lies in [lo, hi], runToAlert observations below the bar for lo raise the critical
      alert, and it is up at every poll from then on, with or without an observation. */
  lemma SlowMinorityIsCaught(k: Config, polls: seq<Poll>, i: nat, n: nat, lo: real, hi: real)
    requires i <= |polls| && lo > 0.0 && k.slowFraction >= 0.0 && SlowSince(k, polls, i, n, lo, hi)
    requires n >= 1 && n >= k.runToAlert
    ensures AlertOf(k, After(k, polls)) == Some(Critical)
  {
    SlowSinceRuns(k, polls, i, n, lo, hi);
  }

  /** And the first observation that is fast enough even against hi takes the alert down. */
  lemma RecoveryClears(k: Config, polls: seq<Poll>, p: Poll, lo: real, hi: real)
    requires k.runToAlert >= 1 && lo > 0.0 && k.slowFraction >= 0.0 && p.Observes() && p.model.Some?
    requires var w := WindowOf(Learnt(After(k, polls).obs, p), p.model.value);
             |w| >= MIN_SAMPLES && Majority(w, lo, hi) && p.tps.value >= k.Bar(hi)
    ensures AlertOf(k, After(k, polls + [p])).None?
  {
    hide WindowOf, Median, Majority, Learnt, Config.Bar;
    var w := WindowOf(Learnt(After(k, polls).obs, p), p.model.value);
    MedianFollowsMajority(w, lo, hi);
    BarGrows(k, Median(w), hi);
    assert (polls + [p])[..|polls|] == polls;
  }

  // ------------------------------------------------------- without a baseline --

  /** There is no norm to judge the poll by: no model is known, too little of it was seen, or what was
      seen is zero. */
  predicate Cold(s: State, p: Poll) {
    || p.model.None?
    || var w := WindowOf(Learnt(s.obs, p), p.model.value);
       |w| < MIN_SAMPLES || Median(w) == 0.0
  }

  /** From poll i on, each poll carries an observation with no norm and below the fixed bar, or none;
      n of them do. */
  predicate ColdSince(k: Config, polls: seq<Poll>, i: nat, n: nat)
    requires i <= |polls|
    decreases |polls|
  {
    if |polls| == i then n == 0
    else
      var front, p := polls[..|polls| - 1], polls[|polls| - 1];
      if !p.Observes() then ColdSince(k, front, i, n)
      else n > 0 && Cold(After(k, front), p) && p.tps.value < k.coldTps && ColdSince(k, front, i, n - 1)
  }

  lemma {:induction false} ColdSinceRuns(k: Config, polls: seq<Poll>, i: nat, n: nat)
    requires i <= |polls| && ColdSince(k, polls, i, n)
    ensures var s := After(k, polls); s.run >= n && (n > 0 ==> s.last.Some? && !Known(s.last.value.1))
    decreases |polls|
  {
    if |polls| == i {
    } else {
      var front, p := polls[..|polls| - 1], polls[|polls| - 1];
      ColdSinceRuns(k, front, i, if p.Observes() then n - 1 else n);
    }
  }

  /** A model too new to have a norm is judged by the fixed bar, and then the alert is the lesser one. */
  lemma ColdIsCaught(k: Config, polls: seq<Poll>, i: nat, n: nat)
    requires i <= |polls| && ColdSince(k, polls, i, n) && n >= 1 && n >= k.runToAlert
    ensures AlertOf(k, After(k, polls)) == Some(Serious)
  {
    ColdSinceRuns(k, polls, i, n);
  }

  /** The first observation at or over the bar takes it down. */
  lemma ColdRecovers(k: Config, polls: seq<Poll>, p: Poll)
    requires k.runToAlert >= 1 && p.Observes() && Cold(After(k, polls), p) && p.tps.value >= k.coldTps
    ensures AlertOf(k, After(k, polls + [p])).None?
  {
    assert (polls + [p])[..|polls|] == polls;
  }

  /** The rates a model was seen at, by the polls alone: those of a turn long enough to tell. */
  function SeenRates(polls: seq<Poll>, model: string): seq<real> {
    if polls == [] then []
    else
      var p := polls[|polls| - 1];
      SeenRates(polls[..|polls| - 1], model) +
      if p.model == Some(model) && p.tps.Some? && p.tokens >= 24 then [p.tps.value] else []
  }

  /** What is learnt is what was seen. */
  lemma {:induction false} LearnsWhatItSees(k: Config, polls: seq<Poll>, model: string)
    ensures OfModel(After(k, polls).obs, model) == SeenRates(polls, model)
    decreases |polls|
  {
    if polls == [] {
    } else {
      var front, p := polls[..|polls| - 1], polls[|polls| - 1];
      LearnsWhatItSees(k, front, model);
      var obs := After(k, front).obs;
      if p.Observes() && p.model.Some? {
        assert (obs + [Obs(p.model.value, p.tps.value)])[..|obs|] == obs;
      }
      assert SeenRates(front, model) + [] == SeenRates(front, model);
    }
  }

  lemma {:induction false} OfModelAppend(a: seq<Obs>, b: seq<Obs>, model: string)
    ensures OfModel(a + b, model) == OfModel(a, model) + OfModel(b, model)
    decreases |b|
  {
    if b == [] {
      assert a + b == a;
      assert OfModel(a, model) + [] == OfModel(a, model);
    } else {
      assert (a + b)[..|a + b| - 1] == a + b[..|b| - 1];
      OfModelAppend(a, b[..|b| - 1], model);
    }
  }

  /** The window is the newest: once a model has been observed often enough, what was observed
      before does not matter to its norm. */
  lemma WindowIsNewest(older: seq<Obs>, newer: seq<Obs>, model: string)
    requires |OfModel(newer, model)| >= WINDOW
    ensures BaselineOf(older + newer, model) == BaselineOf(newer, model)
    ensures |WindowOf(newer, model)| == WINDOW
  {
    OfModelAppend(older, newer, model);
    assert WindowOf(older + newer, model) == WindowOf(newer, model);
  }

  /** Until then every observation of the model counts. */
  lemma WindowIsAll(obs: seq<Obs>, model: string)
    requires |OfModel(obs, model)| <= WINDOW
    ensures WindowOf(obs, model) == OfModel(obs, model)
    ensures BaselineOf(obs, model).Some? <==> |OfModel(obs, model)| >= MIN_SAMPLES
  {
  }
}
