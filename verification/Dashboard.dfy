/** One dashboard's life, from the polls to the chart annotations (monitor.py, _judge and
    reconcile_alerts; static/js/data.js, buildAnnotations). */
module Dashboard {

  import opened Basics
  import opened AlertGate
  import EventLog

  const TITLE := "Server restarting or loading"

  /** How a transition's end is worded: how long it took, rounded. */
  type Words = Transition -> string

  // ------------------------------------------------------------------ alerts --

  function AlertsOf(shown: seq<Shown>): seq<Alert> {
    seq(|shown|, i requires 0 <= i < |shown| => shown[i].alert)
  }

  /** The polls as the event log sees them: with the alerts the gate lets through. */
  function ShownPolls(k: Config, polls: seq<Poll>): seq<EventLog.Poll> {
    if polls == [] then []
    else ShownPolls(k, polls[..|polls| - 1]) + [EventLog.Poll(AlertsOf(Output(k, polls)), polls[|polls| - 1].now)]
  }

  /** The rules' keys are alerts'; what else is logged has keys of its own. */
  predicate RuleKeys(polls: seq<Poll>) {
    forall i, a :: 0 <= i < |polls| && a in polls[i].alerts ==> EventLog.AlertKey(a.key)
  }

  lemma {:induction false} LetIsOfAlerts(k: Config, suppress: bool, seen: map<string, real>, alerts: seq<Alert>, now: real)
    requires Keys(alerts) <= seen.Keys
    ensures forall s :: s in Let(k, suppress, seen, alerts, now) ==> s.alert in alerts
    decreases |alerts|
  {
    if alerts == [] {
    } else {
      var front := alerts[..|alerts| - 1];
      forall key | key in Keys(front) ensures key in Keys(alerts) {
        var i :| 0 <= i < |front| && front[i].key == key;
        assert alerts[i].key == key;
      }
      LetIsOfAlerts(k, suppress, seen, front, now);
    }
  }

  /** The transition is never an alert. */
  lemma NoTransitionAlert(k: Config, polls: seq<Poll>)
    requires RuleKeys(polls)
    ensures EventLog.TRANSITION !in EventLog.ActiveAfter(ShownPolls(k, polls))
  {
    if polls != [] {
      var s, p := After(k, polls), polls[|polls| - 1];
      LetIsOfAlerts(k, Suppressing(k, s.transition, p.now), s.seen, p.alerts, p.now);
      assert EventLog.TRANSITION !in Keys(AlertsOf(Output(k, polls)));
    }
  }

  // -------------------------------------------------------------- transitions --

  function EdgeEvent(w: Words, e: Edge): EventLog.Event {
    match e
    case Started(t) => EventLog.Event(t.since, EventLog.Info, EventLog.TRANSITION, TITLE, t.reason, EventLog.Raised)
    case Ended(t, at) => EventLog.Event(at, EventLog.Info, EventLog.TRANSITION, TITLE, w(t), EventLog.Cleared)
  }

  function EdgeEvents(w: Words, es: seq<Edge>): seq<EventLog.Event> {
    if es == [] then [] else EdgeEvents(w, es[..|es| - 1]) + [EdgeEvent(w, es[|es| - 1])]
  }

  predicate Alternating(es: seq<Edge>) { forall i :: 0 <= i < |es| ==> (es[i].Started? <==> i % 2 == 0) }

  /** The span the i-th transition should read as: from its start to its end, if it has ended. */
  function SpanOf(w: Words, es: seq<Edge>, i: nat): EventLog.Span
    requires 2 * i < |es|
  {
    var t := es[2 * i].info;
    if 2 * i + 1 < |es| && es[2 * i + 1].Ended? then
      EventLog.Span(EventLog.TRANSITION, EventLog.TransitionSpan, t.since, Some(es[2 * i + 1].ended), EventLog.Info, TITLE,
                    EventLog.Join(t.reason, w(es[2 * i + 1].info)))
    else
      EventLog.Span(EventLog.TRANSITION, EventLog.TransitionSpan, t.since, None, EventLog.Info, TITLE, t.reason)
  }

  function TransitionSpans(w: Words, es: seq<Edge>): seq<EventLog.Span> {
    seq((|es| + 1) / 2, i requires 0 <= i < (|es| + 1) / 2 => SpanOf(w, es, i))
  }

  lemma StartOpensSpan(w: Words, es: seq<Edge>)
    requires es != [] && Alternating(es) && |es| % 2 == 1
    ensures SpanOf(w, es, |es| / 2) == EventLog.Fresh(EdgeEvent(w, es[|es| - 1])) && EdgeEvent(w, es[|es| - 1]).state.Raised?
    ensures |es| > 1 ==> SpanOf(w, es[..|es| - 1], |es| / 2 - 1).end.Some?
  {
    if |es| > 1 {
      assert es[..|es| - 1][|es| - 2].Ended?;
    }
  }

  lemma EndClosesSpan(w: Words, es: seq<Edge>)
    requires es != [] && Alternating(es) && |es| % 2 == 0
    ensures var i, front := |es| / 2 - 1, es[..|es| - 1];
            && SpanOf(w, front, i).end.None? && EdgeEvent(w, es[|es| - 1]).state.Cleared?
            && SpanOf(w, es, i) == EventLog.Closed(SpanOf(w, front, i), EdgeEvent(w, es[|es| - 1]))
  {
    hide EventLog.Join;
  }

  lemma OneMoreEdge(w: Words, es: seq<Edge>, since: real)
    requires es != [] && Alternating(es)
    ensures var front := es[..|es| - 1];
            Alternating(front) &&
            TransitionSpans(w, es) == EventLog.NextSpans(TransitionSpans(w, front), EdgeEvent(w, es[|es| - 1]), since)
  {
    hide SpanOf, EdgeEvent, EventLog.Fresh, EventLog.Closed;
    var n := |es| - 1;
    var front, before, after := es[..n], TransitionSpans(w, es[..n]), TransitionSpans(w, es);
    assert forall i :: 0 <= i < n ==> front[i] == es[i];
    forall i | 0 <= i < n / 2 ensures before[i] == after[i] { EarlierSpan(w, es, i); }
    if n % 2 == 1 {
      EndClosesSpan(w, es);
    } else {
      StartOpensSpan(w, es);
    }
  }

  lemma EarlierSpan(w: Words, es: seq<Edge>, i: nat)
    requires 2 * i + 1 < |es| - 1
    ensures SpanOf(w, es[..|es| - 1], i) == SpanOf(w, es, i)
  {
  }

  lemma {:induction false} SpansOfEdges(w: Words, es: seq<Edge>, since: real)
    requires Alternating(es)
    ensures EventLog.KeySpans(EdgeEvents(w, es), since) == TransitionSpans(w, es)
    decreases |es|
  {
    if es == [] {
    } else {
      var front := es[..|es| - 1];
      OneMoreEdge(w, es, since);
      SpansOfEdges(w, front, since);
      var events := EdgeEvents(w, es);
      assert events[..|events| - 1] == EdgeEvents(w, front);
    }
  }

  /** For any log that holds the gate's edges, among any other events, the transition's annotations
      are exactly the gate's transitions, the last one open exactly while one lasts. */
  lemma TransitionRoundTrip(k: Config, w: Words, polls: seq<Poll>, log: seq<EventLog.Event>, since: real, live: set<string>)
    requires EventLog.EventsFor(log, EventLog.TRANSITION) == EdgeEvents(w, Edges(k, polls))
    requires EventLog.TRANSITION in live <==> After(k, polls).transition.Some?
    ensures EventLog.SpansFor(EventLog.Settle(EventLog.Decode(log, since), live), EventLog.TRANSITION)
         == TransitionSpans(w, Edges(k, polls))
  {
    var es := Edges(k, polls);
    EdgesAlternate(k, polls);
    SpansOfEdges(w, es, since);
    EventLog.DecodeByKey(log, since, EventLog.TRANSITION);
    var d := EventLog.Decode(log, since);
    LastIsOpen(w, es);
    EventLog.SameSpansFor(EventLog.Settle(d, live), d.out, EventLog.TRANSITION);
  }

  lemma LastIsOpen(w: Words, es: seq<Edge>)
    requires Alternating(es)
    ensures EventLog.LastOpen(TransitionSpans(w, es)) <==> |es| % 2 == 1
  {
    var spans := TransitionSpans(w, es);
    if es != [] {
      assert spans[|spans| - 1] == SpanOf(w, es, |spans| - 1);
    }
  }

  // ------------------------------------------------------------- end to end --

  /** Gate and log as a run of polls leaves them. */
  ghost predicate Stands(k: Config, w: Words, polls: seq<Poll>, gate: Gate, m: EventLog.Monitor)
    reads gate, m
  {
    && gate.k == k && State(gate.firstSeen, gate.transition) == After(k, polls)
    && m.active == EventLog.ActiveAfter(ShownPolls(k, polls))
    && (forall key :: EventLog.AlertKey(key) ==>
          EventLog.EventsFor(m.log, key) == EventLog.KeyLog(ShownPolls(k, polls), key))
    && EventLog.EventsFor(m.log, EventLog.TRANSITION) == EdgeEvents(w, Edges(k, polls))
  }

  lemma OneMoreEdgeEvent(k: Config, w: Words, polls: seq<Poll>)
    requires polls != []
    ensures var front, now := polls[..|polls| - 1], polls[|polls| - 1].now;
            var e := EdgeBetween(After(k, front).transition, now, After(k, polls).transition);
            && After(k, polls).transition == NextTransition(k, After(k, front).transition, polls[|polls| - 1].signal, now)
            && EdgeEvents(w, Edges(k, polls)) ==
               if e.Some? then EdgeEvents(w, Edges(k, front)) + [EdgeEvent(w, e.value)] else EdgeEvents(w, Edges(k, front))
  {
    var front, now := polls[..|polls| - 1], polls[|polls| - 1].now;
    var e := EdgeBetween(After(k, front).transition, now, After(k, polls).transition);
    if e.Some? {
      assert (Edges(k, front) + [e.value])[..|Edges(k, front)|] == Edges(k, front);
    } else {
      assert Edges(k, front) + [] == Edges(k, front);
    }
  }

  /** The last poll of a run: see _judge. */
  method OnePoll(w: Words, polls: seq<Poll>, gate: Gate, m: EventLog.Monitor, models: seq<EventLog.Event>)
    requires polls != [] && RuleKeys(polls) && Stands(gate.k, w, polls[..|polls| - 1], gate, m)
    requires forall e :: e in models ==> e.key == EventLog.MODEL_CHANGE
    modifies gate, m
    ensures Stands(gate.k, w, polls, gate, m)
  {
    hide After, Edges, EdgeEvents, EventLog.EventsFor, EventLog.KeyLog, EventLog.ActiveAfter, ShownPolls, RuleKeys;
    LogModels(m, models);
    LogEdge(w, polls, gate, m);
    LogAlerts(polls, gate, m);
  }

  method LogEdge(w: Words, polls: seq<Poll>, gate: Gate, m: EventLog.Monitor)
    requires polls != [] && gate.transition == After(gate.k, polls[..|polls| - 1]).transition
    requires EventLog.EventsFor(m.log, EventLog.TRANSITION) == EdgeEvents(w, Edges(gate.k, polls[..|polls| - 1]))
    modifies gate`transition, m`log
    ensures gate.transition == After(gate.k, polls).transition
    ensures EventLog.EventsFor(m.log, EventLog.TRANSITION) == EdgeEvents(w, Edges(gate.k, polls))
    ensures forall key :: key != EventLog.TRANSITION ==> EventLog.EventsFor(m.log, key) == EventLog.EventsFor(old(m.log), key)
  {
    hide After, Edges, EdgeEvents, EventLog.EventsFor;
    OneMoreEdgeEvent(gate.k, w, polls);
    var p := polls[|polls| - 1];
    var edge := gate.UpdateTransition(p.signal, p.now);
    if edge.Some? {
      m.Append(EdgeEvent(w, edge.value));
    }
  }

  method LogAlerts(polls: seq<Poll>, gate: Gate, m: EventLog.Monitor)
    requires polls != [] && RuleKeys(polls) && gate.firstSeen == After(gate.k, polls[..|polls| - 1]).seen
    requires gate.transition == After(gate.k, polls).transition
    requires m.active == EventLog.ActiveAfter(ShownPolls(gate.k, polls[..|polls| - 1]))
    modifies gate`firstSeen, m
    ensures gate.firstSeen == After(gate.k, polls).seen && m.active == EventLog.ActiveAfter(ShownPolls(gate.k, polls))
    ensures EventLog.EventsFor(m.log, EventLog.TRANSITION) == EventLog.EventsFor(old(m.log), EventLog.TRANSITION)
    ensures forall key :: EventLog.AlertKey(key) && EventLog.EventsFor(old(m.log), key) == EventLog.KeyLog(ShownPolls(gate.k, polls[..|polls| - 1]), key)
                          ==> EventLog.EventsFor(m.log, key) == EventLog.KeyLog(ShownPolls(gate.k, polls), key)
  {
    hide EventLog.EventsFor, EventLog.ByKey, Let, EventLog.EdgeOf, RuleKeys;
    var p := polls[|polls| - 1];
    OneMoreShown(gate.k, polls);
    NoTransitionEdge(gate.k, polls);
    var shown := gate.Apply(p.alerts, p.now);
    m.ReconcileAlerts(AlertsOf(shown), p.now);
    var was := EventLog.EventsFor(old(m.log), EventLog.TRANSITION);
    assert was + [] == was;
  }

  lemma OneMoreShown(k: Config, polls: seq<Poll>)
    requires polls != []
    ensures var front, now, all := polls[..|polls| - 1], polls[|polls| - 1].now, ShownPolls(k, polls);
            && all != [] && all[..|all| - 1] == ShownPolls(k, front)
            && all[|all| - 1] == EventLog.Poll(AlertsOf(Output(k, polls)), now)
  {
  }

  lemma NoTransitionEdge(k: Config, polls: seq<Poll>)
    requires polls != [] && RuleKeys(polls)
    ensures var before := EventLog.ActiveAfter(ShownPolls(k, polls[..|polls| - 1]));
            EventLog.EdgeOf(before, EventLog.ActiveAfter(ShownPolls(k, polls)), EventLog.TRANSITION, polls[|polls| - 1].now) == []
  {
    assert RuleKeys(polls[..|polls| - 1]) by {
      assert forall i :: 0 <= i < |polls| - 1 ==> polls[..|polls| - 1][i] == polls[i];
    }
    NoTransitionAlert(k, polls);
    NoTransitionAlert(k, polls[..|polls| - 1]);
  }

  method LogModels(m: EventLog.Monitor, models: seq<EventLog.Event>)
    requires forall e :: e in models ==> e.key == EventLog.MODEL_CHANGE
    modifies m`log
    ensures forall key :: key != EventLog.MODEL_CHANGE ==> EventLog.EventsFor(m.log, key) == EventLog.EventsFor(old(m.log), key)
  {
    hide EventLog.EventsFor;
    for j := 0 to |models|
      invariant forall key :: key != EventLog.MODEL_CHANGE ==> EventLog.EventsFor(m.log, key) == EventLog.EventsFor(old(m.log), key)
    {
      m.Append(models[j]);
    }
  }

  /** The life: each poll drives the gate, logs the edge of a transition, then those of the alerts
      let through; a change of model may be logged before. */
  method Live(k: Config, w: Words, polls: seq<Poll>, models: seq<seq<EventLog.Event>>)
      returns (gate: Gate, m: EventLog.Monitor)
    requires |models| == |polls| && RuleKeys(polls)
    requires forall i, e :: 0 <= i < |models| && e in models[i] ==> e.key == EventLog.MODEL_CHANGE
    ensures fresh(gate) && fresh(m) && Stands(k, w, polls, gate, m)
  {
    gate := new Gate(k);
    m := new EventLog.Monitor();
    for i := 0 to |polls|
      invariant fresh(gate) && fresh(m) && gate.k == k
      invariant Stands(k, w, polls[..i], gate, m)
    {
      assert polls[..i + 1][..i] == polls[..i];
      OnePoll(w, polls[..i + 1], gate, m, models[i]);
    }
    assert polls[..|polls|] == polls;
  }

  /** The main result end to end: what the page shows of a dashboard's life is, for every alert,
      exactly the maximal runs of polls on which the gate let it through, and, for the transition,
      exactly the gate's transitions. */
  method Annotations(k: Config, w: Words, polls: seq<Poll>, models: seq<seq<EventLog.Event>>, since: real)
      returns (out: seq<EventLog.Span>)
    requires |models| == |polls| && RuleKeys(polls)
    requires forall i, e :: 0 <= i < |models| && e in models[i] ==> e.key == EventLog.MODEL_CHANGE
    ensures forall key :: EventLog.AlertKey(key) ==> EventLog.SpansAreRuns(ShownPolls(k, polls), key, EventLog.SpansFor(out, key))
    ensures EventLog.SpansFor(out, EventLog.TRANSITION) == TransitionSpans(w, Edges(k, polls))
  {
    var gate, m := Live(k, w, polls, models);
    var live := m.active.Keys + if gate.transition.Some? then {EventLog.TRANSITION} else {};
    out := EventLog.BuildAnnotations(m.log, since, live);
    NoTransitionAlert(k, polls);
    TransitionRoundTrip(k, w, polls, m.log, since, live);
    forall key | EventLog.AlertKey(key)
      ensures EventLog.SpansAreRuns(ShownPolls(k, polls), key, EventLog.SpansFor(out, key))
    {
      EventLog.EventLogRoundTrip(ShownPolls(k, polls), m.log, since, live, key);
    }
  }
}
