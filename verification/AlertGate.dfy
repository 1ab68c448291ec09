/** Hold times and model-switch transitions (app/inferenceinquire/alerts.py, AlertGate), as the
    poll loop drives them (monitor.py, _judge). */
module AlertGate {

  import opened Basics

  datatype Level = Warning | Serious | Critical

  datatype Alert = Alert(key: string, level: Level, title: string, detail: string)

  /** An alert let through: how long it has held, and whether it is pushed. */
  datatype Shown = Shown(alert: Alert, since: real, notify: bool)

  /** The settings of config.py the gate reads. */
  datatype Config = Config(
    hold: map<string, real>,
    transitionKeys: set<string>,
    transitionMax: real,
    transitionTail: real,
    skipKeys: set<string>,
    warningPrefixes: seq<string>)
  {
    function HoldOf(key: string): real {
      if key in hold then hold[key] else 0.0
    }

    function ShouldNotify(key: string, level: Level): bool {
      key !in skipKeys
      && (level != Warning || exists i :: 0 <= i < |warningPrefixes| && warningPrefixes[i] <= key)
    }
  }

  datatype Transition = Transition(since: real, reason: string, last: real)

  datatype Edge = Started(info: Transition) | Ended(info: Transition, ended: real)

  /** One poll: why the server is visibly mid-restart, if it is, what the rules found, and when. */
  datatype Poll = Poll(signal: Option<string>, alerts: seq<Alert>, now: real)

  function Keys(alerts: seq<Alert>): set<string> {
    set i | 0 <= i < |alerts| :: alerts[i].key
  }

  // --------------------------------------------------------------- one poll --

  function NextTransition(k: Config, t: Option<Transition>, reason: Option<string>, now: real): Option<Transition> {
    match (t, reason)
    case (None, Some(r)) => Some(Transition(now, r, now))
    case (Some(u), Some(r)) => Some(u.(reason := r, last := now))
    case (Some(u), None) => if now - u.last > k.transitionTail then None else t
    case (None, None) => None
  }

  function Suppressing(k: Config, t: Option<Transition>, now: real): bool {
    t.Some? && now - t.value.since < k.transitionMax
  }

  function NextSeen(seen: map<string, real>, alerts: seq<Alert>, now: real): map<string, real> {
    map key | key in Keys(alerts) :: if key in seen then seen[key] else now
  }

  predicate Passes(k: Config, suppress: bool, key: string, since: real, now: real) {
    !(suppress && key in k.transitionKeys) && now - since >= k.HoldOf(key)
  }

  /** The alerts let through, in rule order. */
  function Let(k: Config, suppress: bool, seen: map<string, real>, alerts: seq<Alert>, now: real): seq<Shown>
    requires Keys(alerts) <= seen.Keys
  {
    if alerts == [] then []
    else
      var front, a := alerts[..|alerts| - 1], alerts[|alerts| - 1];
      assert forall i :: 0 <= i < |front| ==> front[i] == alerts[i];
      assert a.key in Keys(alerts);
      var rest := Let(k, suppress, seen, front, now);
      if Passes(k, suppress, a.key, seen[a.key], now)
      then rest + [Shown(a, seen[a.key], k.ShouldNotify(a.key, a.level))]
      else rest
  }

  class Gate {
    const k: Config
    var firstSeen: map<string, real>
    var transition: Option<Transition>

    constructor (k: Config)
      ensures this.k == k && firstSeen == map[] && transition == None
    {
      this.k := k;
      firstSeen := map[];
      transition := None;
    }

    method UpdateTransition(reason: Option<string>, now: real) returns (edge: Option<Edge>)
      modifies this`transition
      ensures transition == NextTransition(k, old(transition), reason, now)
      ensures old(transition).None? && transition.Some? ==> edge == Some(Started(transition.value))
      ensures old(transition).Some? && transition.None? ==> edge == Some(Ended(old(transition).value, now))
      ensures old(transition).Some? == transition.Some? ==> edge == None
    {
      edge := None;
      if reason.Some? {
        if transition.None? {
          transition := Some(Transition(now, reason.value, now));
          edge := Some(Started(transition.value));
        } else {
          transition := Some(transition.value.(reason := reason.value, last := now));
        }
      } else if transition.Some? && now - transition.value.last > k.transitionTail {
        edge := Some(Ended(transition.value, now));
        transition := None;
      }
    }

    method Apply(alerts: seq<Alert>, now: real) returns (out: seq<Shown>)
      modifies this`firstSeen
      ensures firstSeen == NextSeen(old(firstSeen), alerts, now)
      ensures out == Let(k, Suppressing(k, transition, now), firstSeen, alerts, now)
    {
      var gone := firstSeen.Keys - Keys(alerts);
      firstSeen := firstSeen - gone;
      var suppress := Suppressing(k, transition, now);
      out := [];
      ghost var goal := NextSeen(old(firstSeen), alerts, now);
      for i := 0 to |alerts|
        invariant firstSeen.Keys <= goal.Keys && Keys(alerts[..i]) <= firstSeen.Keys
        invariant forall key :: key in firstSeen ==> firstSeen[key] == goal[key]
        invariant forall key :: key in old(firstSeen) && key in Keys(alerts) ==> key in firstSeen
        invariant out == Let(k, suppress, goal, alerts[..i], now)
      {
        var a := alerts[i];
        assert a.key in Keys(alerts);
        assert alerts[..i + 1] == alerts[..i] + [a];
        if a.key !in firstSeen {
          firstSeen := firstSeen[a.key := now];
        }
        var since := firstSeen[a.key];
        if !(suppress && a.key in k.transitionKeys) && !(now - since < k.HoldOf(a.key)) {
          out := out + [Shown(a, since, k.ShouldNotify(a.key, a.level))];
        }
      }
      assert alerts[..|alerts|] == alerts;
      assert firstSeen == goal;
    }
  }

  // ---------------------------------------------------------- runs of polls --

  datatype State = State(seen: map<string, real>, transition: Option<Transition>)

  /** The gate after a run of polls, from a fresh start. */
  function After(k: Config, polls: seq<Poll>): State {
    if polls == [] then State(map[], None)
    else
      var s, p := After(k, polls[..|polls| - 1]), polls[|polls| - 1];
      State(NextSeen(s.seen, p.alerts, p.now), NextTransition(k, s.transition, p.signal, p.now))
  }

  /** What the gate lets through on the last poll of a run. */
  function Output(k: Config, polls: seq<Poll>): seq<Shown>
    requires polls != []
  {
    var s, p := After(k, polls), polls[|polls| - 1];
    Let(k, Suppressing(k, s.transition, p.now), s.seen, p.alerts, p.now)
  }

  predicate Clocked(polls: seq<Poll>) {
    forall i, j :: 0 <= i <= j < |polls| ==> polls[i].now <= polls[j].now
  }

  // ------------------------------------------- the same, read off the history --

  predicate HeldAt(polls: seq<Poll>, n: nat, key: string)
    requires n < |polls|
  {
    key in Keys(polls[n].alerts)
  }

  /** The first poll of the unbroken run of polls up to n on which the condition was there. */
  function HeldSince(polls: seq<Poll>, n: nat, key: string): (j: nat)
    requires n < |polls| && HeldAt(polls, n, key)
    ensures j <= n
    ensures forall i :: j <= i <= n ==> HeldAt(polls, i, key)
    ensures j == 0 || !HeldAt(polls, j - 1, key)
  {
    if n > 0 && HeldAt(polls, n - 1, key) then HeldSince(polls, n - 1, key) else n
  }

  /** The last poll up to n that saw a restart under way. */
  function LastSignal(polls: seq<Poll>, n: nat): (l: Option<nat>)
    requires n < |polls|
    ensures l.Some? ==> l.value <= n && polls[l.value].signal.Some?
    ensures forall i :: (if l.Some? then l.value + 1 else 0) <= i <= n ==> polls[i].signal.None?
  {
    if polls[n].signal.Some? then Some(n)
    else if n == 0 then None
    else LastSignal(polls, n - 1)
  }

  /** A transition lasts while no silence has outgrown the tail. */
  predicate InTransition(k: Config, polls: seq<Poll>, n: nat)
    requires n < |polls|
  {
    var l := LastSignal(polls, n);
    l.Some? && polls[n].now - polls[l.value].now <= k.transitionTail
  }

  function TransitionSince(k: Config, polls: seq<Poll>, n: nat): (j: nat)
    requires n < |polls| && InTransition(k, polls, n)
    ensures j <= n
    ensures forall i :: j <= i <= n ==> InTransition(k, polls, i)
    ensures j == 0 || !InTransition(k, polls, j - 1)
  {
    if n > 0 && InTransition(k, polls, n - 1) then TransitionSince(k, polls, n - 1) else n
  }

  predicate SuppressedAt(k: Config, polls: seq<Poll>, n: nat)
    requires n < |polls|
  {
    InTransition(k, polls, n) && polls[n].now - polls[TransitionSince(k, polls, n)].now < k.transitionMax
  }

  /** What it takes to be shown on poll n. */
  predicate Due(k: Config, polls: seq<Poll>, n: nat, key: string)
    requires n < |polls| && HeldAt(polls, n, key)
  {
    && polls[n].now - polls[HeldSince(polls, n, key)].now >= k.HoldOf(key)
    && !(key in k.transitionKeys && SuppressedAt(k, polls, n))
  }

  // ------------------------------------------------------ both are the same --

  lemma {:induction false} HeldSincePrefix(polls: seq<Poll>, m: nat, n: nat, key: string)
    requires n < m <= |polls| && HeldAt(polls, n, key)
    ensures HeldAt(polls[..m], n, key) && HeldSince(polls[..m], n, key) == HeldSince(polls, n, key)
  {
    if n > 0 && HeldAt(polls, n - 1, key) {
      HeldSincePrefix(polls, m, n - 1, key);
    }
  }

  lemma {:induction false} LastSignalPrefix(polls: seq<Poll>, m: nat, n: nat)
    requires n < m <= |polls|
    ensures LastSignal(polls[..m], n) == LastSignal(polls, n)
  {
    if n == 0 {
    } else {
      LastSignalPrefix(polls, m, n - 1);
    }
  }

  lemma {:induction false} TransitionSincePrefix(k: Config, polls: seq<Poll>, m: nat, n: nat)
    requires n < m <= |polls|
    ensures InTransition(k, polls[..m], n) == InTransition(k, polls, n)
    ensures InTransition(k, polls, n) ==> TransitionSince(k, polls[..m], n) == TransitionSince(k, polls, n)
  {
    LastSignalPrefix(polls, m, n);
    if n == 0 {
    } else {
      TransitionSincePrefix(k, polls, m, n - 1);
    }
  }

  /** first_seen holds, for each condition present now, when its unbroken run began. */
  lemma {:induction false} SeenIsHistory(k: Config, polls: seq<Poll>)
    requires polls != []
    ensures var n := |polls| - 1;
            After(k, polls).seen == map key | key in Keys(polls[n].alerts) :: polls[HeldSince(polls, n, key)].now
    decreases |polls|
  {
    var n := |polls| - 1;
    var front := polls[..n];
    if n == 0 {
    } else {
      SeenIsHistory(k, front);
      forall key | key in Keys(polls[n].alerts) && key in Keys(front[n - 1].alerts)
        ensures After(k, front).seen[key] == polls[HeldSince(polls, n, key)].now
      {
        assert HeldAt(polls, n - 1, key);
        HeldSincePrefix(polls, n, n - 1, key);
      }
      assert front[n - 1] == polls[n - 1];
    }
  }

  lemma TransitionStartsWithSignal(k: Config, polls: seq<Poll>, n: nat)
    requires Clocked(polls) && n < |polls| && InTransition(k, polls, n)
    requires n == 0 || !InTransition(k, polls, n - 1)
    ensures polls[n].signal.Some?
  {
  }

  /** The transition as the history of signals says it: open while no silence outgrew the tail, since
      the signal that opened it, with the latest reason. */
  function TransitionAt(k: Config, polls: seq<Poll>, n: nat): Option<Transition>
    requires n < |polls|
  {
    if InTransition(k, polls, n) then
      var l := LastSignal(polls, n).value;
      Some(Transition(polls[TransitionSince(k, polls, n)].now, polls[l].signal.value, polls[l].now))
    else None
  }

  lemma TransitionAtPrefix(k: Config, polls: seq<Poll>, m: nat, n: nat)
    requires n < m <= |polls|
    ensures TransitionAt(k, polls[..m], n) == TransitionAt(k, polls, n)
  {
    LastSignalPrefix(polls, m, n);
    TransitionSincePrefix(k, polls, m, n);
    hide LastSignal, TransitionSince;
  }

  lemma NextTransitionAt(k: Config, polls: seq<Poll>, n: nat)
    requires Clocked(polls) && 0 < n < |polls| && k.transitionTail >= 0.0
    ensures NextTransition(k, TransitionAt(k, polls, n - 1), polls[n].signal, polls[n].now) == TransitionAt(k, polls, n)
  {
    if InTransition(k, polls, n) && !InTransition(k, polls, n - 1) {
      TransitionStartsWithSignal(k, polls, n);
    }
  }

  /** The transition record is what the history of signals says. */
  lemma {:induction false} TransitionIsHistory(k: Config, polls: seq<Poll>)
    requires polls != [] && Clocked(polls) && k.transitionTail >= 0.0
    ensures After(k, polls).transition == TransitionAt(k, polls, |polls| - 1)
    decreases |polls|
  {
    var n := |polls| - 1;
    var front := polls[..n];
    if n == 0 {
      FirstTransition(k, polls);
    } else {
      assert Clocked(front);
      hide TransitionAt, NextTransition, NextSeen, Clocked;
      TransitionIsHistory(k, front);
      TransitionAtPrefix(k, polls, n, n - 1);
      NextTransitionAt(k, polls, n);
    }
  }

  lemma FirstTransition(k: Config, polls: seq<Poll>)
    requires |polls| == 1 && k.transitionTail >= 0.0
    ensures After(k, polls).transition == TransitionAt(k, polls, 0)
  {
    assert After(k, []) == State(map[], None);
    assert polls[..0] == [];
  }

  lemma {:induction false} LetIsFilter(k: Config, suppress: bool, seen: map<string, real>, alerts: seq<Alert>, now: real, a: Alert)
    requires Keys(alerts) <= seen.Keys
    ensures var out := Let(k, suppress, seen, alerts, now);
            && (a in alerts && Passes(k, suppress, a.key, seen[a.key], now) <==>
                  exists s :: s in out && s.alert == a)
            && (forall s :: s in out ==>
                  && s.alert in alerts && s.alert.key in seen && s.since == seen[s.alert.key]
                  && s.notify == k.ShouldNotify(s.alert.key, s.alert.level))
    decreases |alerts|
  {
    if alerts == [] {
    } else {
      var front, b := alerts[..|alerts| - 1], alerts[|alerts| - 1];
      assert forall i :: 0 <= i < |front| ==> front[i] == alerts[i];
      assert b.key in Keys(alerts);
      assert alerts == front + [b];
      LetIsFilter(k, suppress, seen, front, now, a);
      var out := Let(k, suppress, seen, alerts, now);
      if b == a && Passes(k, suppress, a.key, seen[a.key], now) {
        assert out[|out| - 1].alert == a;
      }
    }
  }

  /** The main result: on every poll of every run, an alert is shown if and only if its condition
      has been there on every poll for its hold time and it is not held back by a transition,
      and it carries the moment its run began. */
  lemma GateEqualsHistory(k: Config, polls: seq<Poll>, a: Alert)
    requires polls != [] && Clocked(polls) && k.transitionTail >= 0.0
    ensures var n := |polls| - 1;
            && (a in polls[n].alerts ==> HeldAt(polls, n, a.key))
            && ((a in polls[n].alerts && Due(k, polls, n, a.key)) <==>
                  exists s :: s in Output(k, polls) && s.alert == a)
            && (forall s :: s in Output(k, polls) ==>
                  && HeldAt(polls, n, s.alert.key)
                  && s.since == polls[HeldSince(polls, n, s.alert.key)].now
                  && s.notify == k.ShouldNotify(s.alert.key, s.alert.level))
  {
    var n := |polls| - 1;
    var s, p := After(k, polls), polls[n];
    SeenIsHistory(k, polls);
    TransitionIsHistory(k, polls);
    assert Suppressing(k, s.transition, p.now) == SuppressedAt(k, polls, n);
    forall x | x in p.alerts ensures HeldAt(polls, n, x.key) {
      var i :| 0 <= i < |p.alerts| && p.alerts[i] == x;
    }
    LetIsFilter(k, Suppressing(k, s.transition, p.now), s.seen, p.alerts, p.now, a);
  }

  /** Where in the rules' output the shown alerts stand. */
  predicate LetAt(k: Config, suppress: bool, seen: map<string, real>, alerts: seq<Alert>, now: real, at: seq<nat>)
    requires Keys(alerts) <= seen.Keys
  {
    var out := Let(k, suppress, seen, alerts, now);
    && |at| == |out| && (forall x, y :: 0 <= x < y < |at| ==> at[x] < at[y])
    && (forall x :: 0 <= x < |at| ==> at[x] < |alerts| && out[x].alert == alerts[at[x]])
    && (forall i: nat :: i < |alerts| ==>
          (i in at <==> alerts[i].key in seen && Passes(k, suppress, alerts[i].key, seen[alerts[i].key], now)))
  }

  lemma {:induction false} LetInOrder(k: Config, suppress: bool, seen: map<string, real>, alerts: seq<Alert>, now: real)
      returns (at: seq<nat>)
    requires Keys(alerts) <= seen.Keys
    ensures LetAt(k, suppress, seen, alerts, now, at)
    decreases |alerts|
  {
    at := [];
    if alerts == [] {
    } else {
      var n := |alerts| - 1;
      assert forall i :: 0 <= i < n ==> alerts[..n][i] == alerts[i];
      assert alerts[n].key in Keys(alerts);
      at := LetInOrder(k, suppress, seen, alerts[..n], now);
      if Passes(k, suppress, alerts[n].key, seen[alerts[n].key], now) {
        at := at + [n];
      }
    }
  }

  /** The shown alerts of the last poll, by their positions among what the rules found. */
  predicate ShownAt(k: Config, polls: seq<Poll>, at: seq<nat>)
    requires polls != []
  {
    var n := |polls| - 1;
    var found, out := polls[n].alerts, Output(k, polls);
    && |at| == |out| && (forall x, y :: 0 <= x < y < |at| ==> at[x] < at[y])
    && (forall x :: 0 <= x < |at| ==> at[x] < |found| && out[x].alert == found[at[x]])
    && (forall i: nat :: i < |found| ==> (i in at <==> HeldAt(polls, n, found[i].key) && Due(k, polls, n, found[i].key)))
  }

  lemma PassesIsDue(k: Config, polls: seq<Poll>, i: nat)
    requires polls != [] && Clocked(polls) && k.transitionTail >= 0.0 && i < |polls[|polls| - 1].alerts|
    ensures var n := |polls| - 1;
            var s, p, key := After(k, polls), polls[n], polls[n].alerts[i].key;
            && HeldAt(polls, n, key) && key in s.seen
            && (Passes(k, Suppressing(k, s.transition, p.now), key, s.seen[key], p.now) <==> Due(k, polls, n, key))
  {
    hide LastSignal, Clocked;
    SeenIsHistory(k, polls);
    TransitionIsHistory(k, polls);
    assert HeldAt(polls, |polls| - 1, polls[|polls| - 1].alerts[i].key);
  }

  /** The order of the rules is kept, and each alert that is due is shown once. */
  lemma ShownInOrder(k: Config, polls: seq<Poll>)
    requires polls != [] && Clocked(polls) && k.transitionTail >= 0.0
    ensures exists at :: ShownAt(k, polls, at)
  {
    hide Let, Clocked, After, Suppressing, Passes, Due, HeldAt, Keys;
    var n := |polls| - 1;
    var s, p := After(k, polls), polls[n];
    assert Keys(p.alerts) <= s.seen.Keys by { SeenIsHistory(k, polls); }
    var at := LetInOrder(k, Suppressing(k, s.transition, p.now), s.seen, p.alerts, p.now);
    forall i: nat | i < |p.alerts| ensures i in at <==> HeldAt(polls, n, p.alerts[i].key) && Due(k, polls, n, p.alerts[i].key) {
      PassesIsDue(k, polls, i);
    }
    assert ShownAt(k, polls, at);
  }

  predicate StartsWith(key: string, prefix: string) { |prefix| <= |key| && key[..|prefix|] == prefix }

  lemma SomePrefix(prefixes: seq<string>, key: string)
    ensures (exists i :: 0 <= i < |prefixes| && prefixes[i] <= key) <==> exists p :: p in prefixes && StartsWith(key, p)
  {
    if i :| 0 <= i < |prefixes| && prefixes[i] <= key {
      assert prefixes[i] in prefixes && StartsWith(key, prefixes[i]);
    }
    if p :| p in prefixes && StartsWith(key, p) {
      var i :| 0 <= i < |prefixes| && prefixes[i] == p;
      assert prefixes[i] <= key;
    }
  }

  /** Who is pushed: nothing that is to be skipped; of the rest all that is serious or critical, and
      of the warnings those of the listed families. */
  lemma PushedIff(k: Config, polls: seq<Poll>, s: Shown)
    requires polls != [] && s in Output(k, polls)
    ensures s.alert.key in k.skipKeys ==> !s.notify
    ensures s.alert.key !in k.skipKeys && s.alert.level in {Serious, Critical} ==> s.notify
    ensures s.alert.key !in k.skipKeys && s.alert.level == Warning ==>
      (s.notify <==> exists p :: p in k.warningPrefixes && StartsWith(s.alert.key, p))
  {
    var st, p := After(k, polls), polls[|polls| - 1];
    LetIsFilter(k, Suppressing(k, st.transition, p.now), st.seen, p.alerts, p.now, s.alert);
    SomePrefix(k.warningPrefixes, s.alert.key);
  }

  lemma {:induction false} SameTransition(k: Config, polls: seq<Poll>, m: nat, n: nat)
    requires m <= n < |polls| && forall i :: m <= i <= n ==> InTransition(k, polls, i)
    ensures TransitionSince(k, polls, n) == TransitionSince(k, polls, m)
    decreases n
  {
    if m < n {
      SameTransition(k, polls, m, n - 1);
    }
  }

  /** However often the signal is repeated, one transition never holds an alert back for longer
      than the maximum: after that much of it, nothing is suppressed. */
  lemma SuppressionIsBounded(k: Config, polls: seq<Poll>, m: nat, n: nat)
    requires Clocked(polls) && m <= n < |polls| && forall i :: m <= i <= n ==> InTransition(k, polls, i)
    requires polls[n].now - polls[m].now >= k.transitionMax
    ensures !SuppressedAt(k, polls, n)
  {
    SameTransition(k, polls, m, n);
    assert polls[TransitionSince(k, polls, m)].now <= polls[m].now;
  }

  // ------------------------------------------------------------------- edges --

  function EdgeBetween(before: Option<Transition>, now: real, after: Option<Transition>): Option<Edge> {
    match (before, after)
    case (None, Some(t)) => Some(Started(t))
    case (Some(t), None) => Some(Ended(t, now))
    case _ => None
  }

  /** The edges a run reports, in order. */
  function Edges(k: Config, polls: seq<Poll>): seq<Edge> {
    if polls == [] then []
    else
      var front, p := polls[..|polls| - 1], polls[|polls| - 1];
      var e := EdgeBetween(After(k, front).transition, p.now, After(k, polls).transition);
      Edges(k, front) + if e.Some? then [e.value] else []
  }

  /** Starts and ends take turns, beginning with a start; an end carries the record that the
      start before it opened, and comes after more than the tail of silence. */
  lemma {:induction false} EdgesAlternate(k: Config, polls: seq<Poll>)
    ensures var es := Edges(k, polls);
            && (forall i :: 0 <= i < |es| ==> (es[i].Started? <==> i % 2 == 0))
            && (forall i :: 0 < i < |es| && es[i].Ended? ==>
                  es[i].info.since == es[i - 1].info.since && es[i].ended - es[i].info.last > k.transitionTail)
            && (|es| % 2 == 1 <==> After(k, polls).transition.Some?)
            && (|es| % 2 == 1 ==> es[|es| - 1].info.since == After(k, polls).transition.value.since)
    decreases |polls|
  {
    if polls == [] {
    } else {
      EdgesAlternate(k, polls[..|polls| - 1]);
    }
  }
}
