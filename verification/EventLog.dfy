/** The event log: edges written by the poll loop (monitor.py, reconcile_alerts) and read back
    into spans by the page (static/js/data.js, buildAnnotations). */
module EventLog {

  import opened Basics
  import opened AlertGate

  datatype Edge = Raised | Cleared

  /** How grave an event is: an alert's level, or none. */
  datatype Grade = Info | Of(level: Level)

  datatype Event = Event(ts: real, level: Grade, key: string, title: string, detail: string, state: Edge)

  const MODEL_CHANGE := "model_change"
  const TRANSITION := "transition"

  // ------------------------------------------------------------------ writer --

  /** The alerts by key: the last of a key counts. */
  function ByKey(alerts: seq<Alert>): (m: map<string, Alert>)
    ensures m.Keys == Keys(alerts)
    ensures forall key :: key in m ==> m[key].key == key
  {
    if alerts == [] then map[]
    else
      var front, a := alerts[..|alerts| - 1], alerts[|alerts| - 1];
      assert Keys(alerts) == Keys(front) + {a.key} by {
        forall key | key in Keys(front) ensures key in Keys(alerts) {
          var i :| 0 <= i < |front| && front[i].key == key;
          assert alerts[i].key == key;
        }
      }
      ByKey(front)[a.key := a]
  }

  /** Of several alerts of a key the last is the one. */
  lemma {:induction false} ByKeyIsLast(alerts: seq<Alert>, i: nat)
    requires i < |alerts| && forall j :: i < j < |alerts| ==> alerts[j].key != alerts[i].key
    ensures alerts[i].key in ByKey(alerts) && ByKey(alerts)[alerts[i].key] == alerts[i]
    decreases |alerts|
  {
    var n := |alerts| - 1;
    if i < n {
      ByKeyIsLast(alerts[..n], i);
    }
  }

  function EventsFor(log: seq<Event>, key: string): seq<Event> {
    if log == [] then []
    else
      var e := log[|log| - 1];
      var before := EventsFor(log[..|log| - 1], key);
      if e.key == key then before + [e] else before
  }

  lemma EventsForAppend(log: seq<Event>, e: Event, key: string)
    ensures EventsFor(log + [e], key) == if e.key == key then EventsFor(log, key) + [e] else EventsFor(log, key)
  {
    assert (log + [e])[..|log|] == log;
  }

  function RaisedOf(before: map<string, Alert>, after: map<string, Alert>, key: string, now: real): seq<Event> {
    if key in after && key !in before then
      var a := after[key];
      [Event(now, Of(a.level), key, a.title, a.detail, Raised)]
    else []
  }

  function ClearedOf(before: map<string, Alert>, after: map<string, Alert>, key: string, now: real): seq<Event> {
    if key in before && key !in after then [Event(now, Of(before[key].level), key, before[key].title, "", Cleared)] else []
  }

  /** The edge of one key between two polls, if there is one. */
  function EdgeOf(before: map<string, Alert>, after: map<string, Alert>, key: string, now: real): seq<Event> {
    RaisedOf(before, after, key, now) + ClearedOf(before, after, key, now)
  }

  class Monitor {
    var active: map<string, Alert>
    var log: seq<Event>

    constructor ()
      ensures active == map[] && log == []
    {
      active, log := map[], [];
    }

    /** Writes one event for each alert that came or went, and no other. */
    method ReconcileAlerts(alerts: seq<Alert>, now: real)
      modifies this
      ensures active == ByKey(alerts)
      ensures forall key :: EventsFor(log, key) == EventsFor(old(log), key) + EdgeOf(old(active), active, key, now)
    {
      var current := ByKey(alerts);
      LogRaised(current, now);
      LogCleared(current, now);
      active := current;
    }

    method LogRaised(current: map<string, Alert>, now: real)
      modifies this`log
      ensures forall key :: EventsFor(log, key) == EventsFor(old(log), key) + RaisedOf(active, current, key, now)
    {
      hide EventsFor;
      var keys := current.Keys;
      while keys != {}
        invariant keys <= current.Keys
        invariant forall key :: key in keys ==> EventsFor(log, key) == EventsFor(old(log), key)
        invariant forall key :: key !in keys ==>
          EventsFor(log, key) == if key in current && key !in active then EventsFor(old(log), key) + RaisedOf(active, current, key, now) else EventsFor(old(log), key)
        decreases keys
      {
        var key :| key in keys;
        if key !in active {
          var a := current[key];
          Append(Event(now, Of(a.level), key, a.title, a.detail, Raised));
        }
        keys := keys - {key};
      }
    }

    method LogCleared(current: map<string, Alert>, now: real)
      modifies this`log
      ensures forall key :: EventsFor(log, key) == EventsFor(old(log), key) + ClearedOf(active, current, key, now)
    {
      hide EventsFor;
      var keys := active.Keys;
      while keys != {}
        invariant keys <= active.Keys
        invariant forall key :: key in keys ==> EventsFor(log, key) == EventsFor(old(log), key)
        invariant forall key :: key !in keys ==>
          EventsFor(log, key) == if key in active && key !in current then EventsFor(old(log), key) + ClearedOf(active, current, key, now) else EventsFor(old(log), key)
        decreases keys
      {
        var key :| key in keys;
        if key !in current {
          Append(Event(now, Of(active[key].level), key, active[key].title, "", Cleared));
        }
        keys := keys - {key};
      }
    }

    method Append(e: Event)
      modifies this`log
      ensures log == old(log) + [e]
      ensures forall key :: EventsFor(log, key) == if e.key == key then EventsFor(old(log), key) + [e] else EventsFor(old(log), key)
    {
      forall key ensures EventsFor(log + [e], key) == if e.key == key then EventsFor(log, key) + [e] else EventsFor(log, key) {
        EventsForAppend(log, e, key);
      }
      log := log + [e];
    }
  }

  // ------------------------------------------------------------------ reader --

  datatype Kind = ModelMark | TransitionSpan | AlertSpan

  /** A chart annotation. The key is the model's own: it says whose span this is. */
  datatype Span = Span(key: string, kind: Kind, ts: real, end: Option<real>, level: Grade, title: string, detail: string)

  /** The annotations so far, and where each open key's one is. */
  datatype Decoded = Decoded(out: seq<Span>, open: map<string, nat>)

  function KindOf(key: string): Kind {
    if key == TRANSITION then TransitionSpan else AlertSpan
  }

  function Join(detail: string, more: string): string {
    if more == "" then detail else if detail == "" then more else detail + " · " + more
  }

  /** Neither text is lost, and only two that are there are kept apart. */
  lemma JoinKeepsBoth(detail: string, more: string)
    ensures var both := Join(detail, more);
            && detail <= both && |more| <= |both| && both[|both| - |more|..] == more
            && |both| == |detail| + |more| + if detail == "" || more == "" then 0 else 3
  {
  }

  function Closed(a: Span, e: Event): Span {
    a.(end := Some(e.ts), detail := Join(a.detail, e.detail))
  }

  function Fresh(e: Event): Span {
    Span(e.key, KindOf(e.key), e.ts, None, e.level, e.title, e.detail)
  }

  function Orphan(e: Event, since: real): Span {
    Fresh(e).(ts := since, end := Some(e.ts))
  }

  predicate Sound(d: Decoded) {
    && MODEL_CHANGE !in d.open
    && forall key :: key in d.open ==>
      && d.open[key] < |d.out| && d.out[d.open[key]].key == key && d.out[d.open[key]].end.None?
      && forall j :: d.open[key] < j < |d.out| ==> d.out[j].key != key
  }

  function Step(d: Decoded, e: Event, since: real): Decoded
    requires Sound(d)
    ensures Sound(Step(d, e, since))
  {
    if e.key == MODEL_CHANGE then
      d.(out := d.out + [Span(e.key, ModelMark, e.ts, None, e.level, "Model changed", e.detail)])
    else if e.state.Raised? then
      if e.key in d.open then d
      else Decoded(d.out + [Fresh(e)], d.open[e.key := |d.out|])
    else if e.key in d.open then
      var i := d.open[e.key];
      Decoded(d.out[i := Closed(d.out[i], e)], d.open - {e.key})
    else d.(out := d.out + [Orphan(e, since)])
  }

  function Decode(events: seq<Event>, since: real): (d: Decoded)
    ensures Sound(d)
  {
    if events == [] then Decoded([], map[])
    else Step(Decode(events[..|events| - 1], since), events[|events| - 1], since)
  }

  /** Spans still open that are no longer true end where they began. */
  function Settle(d: Decoded, live: set<string>): seq<Span>
    requires Sound(d)
  {
    seq(|d.out|, i requires 0 <= i < |d.out| =>
      var a := d.out[i];
      if a.key in d.open && d.open[a.key] == i && a.key !in live then a.(end := Some(a.ts)) else a)
  }

  /** `live` are the keys the snapshot shows as active, the transition among them. */
  method BuildAnnotations(events: seq<Event>, since: real, live: set<string>) returns (out: seq<Span>)
    ensures out == Settle(Decode(events, since), live)
  {
    var open;
    out, open := ReadEvents(events, since);
    out := SettleOpen(out, open, live);
  }

  method ReadEvents(events: seq<Event>, since: real) returns (out: seq<Span>, open: map<string, nat>)
    ensures Decoded(out, open) == Decode(events, since)
  {
    out, open := [], map[];
    for i := 0 to |events|
      invariant Decoded(out, open) == Decode(events[..i], since)
    {
      hide Sound;
      var e := events[i];
      assert events[..i + 1][..i] == events[..i];
      assert Decode(events[..i + 1], since) == Step(Decode(events[..i], since), e, since);
      if e.key == MODEL_CHANGE {
        out := out + [Span(e.key, ModelMark, e.ts, None, e.level, "Model changed", e.detail)];
      } else if e.state.Raised? {
        if e.key !in open {
          open := open[e.key := |out|];
          out := out + [Fresh(e)];
        }
      } else if e.key in open {
        out, open := Close(out, open, e);
      } else {
        out := out + [Orphan(e, since)];
      }
    }
    assert events[..|events|] == events;
  }

  method Close(out: seq<Span>, open: map<string, nat>, e: Event) returns (out': seq<Span>, open': map<string, nat>)
    requires Sound(Decoded(out, open)) && e.key in open
    ensures out' == out[open[e.key] := Closed(out[open[e.key]], e)] && open' == open - {e.key}
  {
    var at := open[e.key];
    out' := out[at := Closed(out[at], e)];
    open' := open - {e.key};
  }

  method SettleOpen(spans: seq<Span>, open: map<string, nat>, live: set<string>) returns (out: seq<Span>)
    requires Sound(Decoded(spans, open))
    ensures out == Settle(Decoded(spans, open), live)
  {
    out := spans;
    var keys := open.Keys;
    while keys != {}
      invariant keys <= open.Keys && |out| == |spans|
      invariant forall i :: 0 <= i < |out| ==>
        var a := spans[i];
        out[i] == if a.key in open && open[a.key] == i && a.key !in keys && a.key !in live then a.(end := Some(a.ts)) else a
      decreases keys
    {
      var key :| key in keys;
      var at := open[key];
      if key !in live {
        out := out[at := out[at].(end := Some(out[at].ts))];
      }
      keys := keys - {key};
    }
  }

  // -------------------------------------------------------- one key at a time --

  function SpansFor(out: seq<Span>, key: string): seq<Span> {
    if out == [] then []
    else
      var before := SpansFor(out[..|out| - 1], key);
      if out[|out| - 1].key == key then before + [out[|out| - 1]] else before
  }

  predicate LastOpen(spans: seq<Span>) {
    spans != [] && spans[|spans| - 1].end.None?
  }

  /** One event of a key against that key's spans: only the last one can be open. */
  function NextSpans(spans: seq<Span>, e: Event, since: real): seq<Span> {
    if e.state.Raised? then if LastOpen(spans) then spans else spans + [Fresh(e)]
    else if LastOpen(spans) then spans[|spans| - 1 := Closed(spans[|spans| - 1], e)]
    else spans + [Orphan(e, since)]
  }

  function KeySpans(events: seq<Event>, since: real): seq<Span> {
    if events == [] then []
    else NextSpans(KeySpans(events[..|events| - 1], since), events[|events| - 1], since)
  }

  lemma SpansForAppend(out: seq<Span>, a: Span, key: string)
    ensures SpansFor(out + [a], key) == if a.key == key then SpansFor(out, key) + [a] else SpansFor(out, key)
  {
    assert (out + [a])[..|out|] == out;
  }

  /** Replacing the last span of its key, by one of the same key. */
  lemma {:induction false} SpansForUpdate(out: seq<Span>, i: nat, a: Span, key: string)
    requires i < |out| && out[i].key == a.key
    requires forall j :: i < j < |out| ==> out[j].key != a.key
    ensures var spans := SpansFor(out, key);
            if key == a.key
            then spans != [] && spans[|spans| - 1] == out[i] && SpansFor(out[i := a], key) == spans[|spans| - 1 := a]
            else SpansFor(out[i := a], key) == spans
    decreases |out|
  {
    var front := out[..|out| - 1];
    if i < |front| {
      assert out[i := a][..|out| - 1] == front[i := a];
      SpansForUpdate(front, i, a, key);
    } else {
      assert out[i := a][..|out| - 1] == front;
    }
  }

  predicate OpenAgrees(d: Decoded, key: string)
    requires Sound(d)
  {
    key in d.open <==> LastOpen(SpansFor(d.out, key))
  }

  lemma StepByKey(d: Decoded, e: Event, since: real, key: string)
    requires Sound(d) && key != MODEL_CHANGE && OpenAgrees(d, key)
    ensures var spans := SpansFor(d.out, key);
            SpansFor(Step(d, e, since).out, key) == if e.key == key then NextSpans(spans, e, since) else spans
    ensures OpenAgrees(Step(d, e, since), key)
  {
    hide SpansFor;
    if e.key == MODEL_CHANGE {
      SpansForAppend(d.out, Span(e.key, ModelMark, e.ts, None, e.level, "Model changed", e.detail), key);
    } else if e.state.Raised? {
      SpansForAppend(d.out, Fresh(e), key);
    } else if e.key in d.open {
      SpansForUpdate(d.out, d.open[e.key], Closed(d.out[d.open[e.key]], e), key);
    } else {
      SpansForAppend(d.out, Orphan(e, since), key);
    }
  }

  /** Decoding treats each key on its own: the spans of a key are those of its events. */
  lemma {:induction false} DecodeByKey(events: seq<Event>, since: real, key: string)
    requires key != MODEL_CHANGE
    ensures var d := Decode(events, since);
            SpansFor(d.out, key) == KeySpans(EventsFor(events, key), since) && OpenAgrees(d, key)
    decreases |events|
  {
    if events == [] {
    } else {
      var front, e := events[..|events| - 1], events[|events| - 1];
      DecodeByKey(front, since, key);
      StepByKey(Decode(front, since), e, since, key);
      var mine := EventsFor(front, key);
      assert (mine + [e])[..|mine|] == mine;
    }
  }

  // ------------------------------------------------ any log, read plainly --

  /** The events that begin a span: those that do not come right after a raise of their key. Raised
      again with no clear between, it is still the same condition. */
  function Begins(events: seq<Event>): (at: seq<nat>)
    ensures forall x :: 0 <= x < |at| ==> at[x] < |events|
  {
    if events == [] then []
    else
      var n := |events| - 1;
      Begins(events[..n]) + if n == 0 || events[n - 1].state.Cleared? then [n] else []
  }

  function NextClear(events: seq<Event>, i: nat): (j: Option<nat>)
    requires i <= |events|
    ensures j.Some? ==> i <= j.value < |events| && events[j.value].state.Cleared?
    ensures forall x :: i <= x < (if j.Some? then j.value else |events|) ==> events[x].state.Raised?
    decreases |events| - i
  {
    if i == |events| then None else if events[i].state.Cleared? then Some(i) else NextClear(events, i + 1)
  }

  /** The span that begins with an event. A raise lasts to the next clear, if one comes; a clear with
      no raise before it is of an alert raised before the range began, and spans from there. */
  function SpanFrom(events: seq<Event>, i: nat, since: real): Span
    requires i < |events|
  {
    var e, j := events[i], NextClear(events, i);
    if e.state.Cleared? then Span(e.key, KindOf(e.key), since, Some(e.ts), e.level, e.title, e.detail)
    else if j.None? then Span(e.key, KindOf(e.key), e.ts, None, e.level, e.title, e.detail)
    else Span(e.key, KindOf(e.key), e.ts, Some(events[j.value].ts), e.level, e.title, Join(e.detail, events[j.value].detail))
  }

  lemma {:induction false} BeginsIff(events: seq<Event>, i: nat)
    requires i < |events|
    ensures i in Begins(events) <==> i == 0 || events[i - 1].state.Cleared?
    decreases |events|
  {
    var n := |events| - 1;
    if i < n {
      BeginsIff(events[..n], i);
    }
  }

  /** The spans are those that events begin, in order, and only the last can be open: when the last
      event is a raise. */
  predicate SpansAreFrom(events: seq<Event>, since: real, spans: seq<Span>) {
    var at := Begins(events);
    && |spans| == |at| && (forall x :: 0 <= x < |spans| ==> spans[x] == SpanFrom(events, at[x], since))
    && (forall x :: 0 <= x < |spans| - 1 ==> spans[x].end.Some?)
    && (LastOpen(spans) <==> events != [] && events[|events| - 1].state.Raised?)
  }

  lemma {:induction false} NextClearGrows(events: seq<Event>, i: nat)
    requires events != [] && i < |events|
    ensures var n := |events| - 1;
            var was := NextClear(events[..n], i);
            NextClear(events, i) == if was.Some? then was else if events[n].state.Cleared? then Some(n) else None
    decreases |events| - i
  {
    var n := |events| - 1;
    if i == n {
      assert NextClear(events, n + 1) == None;
    } else if events[i].state.Raised? {
      NextClearGrows(events, i + 1);
    }
  }

  lemma SpanGrows(events: seq<Event>, i: nat, since: real)
    requires i < |events| - 1
    ensures var n := |events| - 1;
            var was := SpanFrom(events[..n], i, since);
            SpanFrom(events, i, since) == if was.end.None? && events[n].state.Cleared? then Closed(was, events[n]) else was
  {
    NextClearGrows(events, i);
  }

  /** One more event leaves a span as it was, or closes it. */
  predicate GrownFrom(events: seq<Event>, since: real, spans: seq<Span>)
    requires events != []
  {
    var n := |events| - 1;
    var was := Begins(events[..n]);
    |was| == |spans| &&
    forall x :: 0 <= x < |was| ==>
      SpanFrom(events, was[x], since)
      == if spans[x].end.None? && events[n].state.Cleared? then Closed(spans[x], events[n]) else spans[x]
  }

  lemma OldSpans(events: seq<Event>, since: real, spans: seq<Span>)
    requires events != [] && SpansAreFrom(events[..|events| - 1], since, spans)
    ensures GrownFrom(events, since, spans)
  {
    hide SpanFrom, Closed;
    var was := Begins(events[..|events| - 1]);
    forall x | 0 <= x < |was| ensures
      SpanFrom(events, was[x], since)
      == if spans[x].end.None? && events[|events| - 1].state.Cleared? then Closed(spans[x], events[|events| - 1]) else spans[x]
    {
      SpanGrows(events, was[x], since);
    }
  }

  lemma NextIsFrom(events: seq<Event>, since: real, spans: seq<Span>)
    requires events != [] && SpansAreFrom(events[..|events| - 1], since, spans)
    ensures SpansAreFrom(events, since, NextSpans(spans, events[|events| - 1], since))
  {
    hide SpanFrom;
    var n := |events| - 1;
    var was := Begins(events[..n]);
    OldSpans(events, since, spans);
    assert n > 0 ==> events[..n][n - 1] == events[n - 1];
    NewestFrom(events, since);
    if !LastOpen(spans) {
      assert Begins(events) == was + [n];
    } else {
      assert Begins(events) == was + [] == was;
    }
  }

  lemma NewestFrom(events: seq<Event>, since: real)
    requires events != []
    ensures var n := |events| - 1;
            var e := events[n];
            SpanFrom(events, n, since) == if e.state.Raised? then Fresh(e) else Orphan(e, since)
  {
    assert NextClear(events, |events|) == None;
  }

  lemma {:induction false} KeySpansAreFrom(events: seq<Event>, since: real)
    ensures SpansAreFrom(events, since, KeySpans(events, since))
    decreases |events|
  {
    if events == [] {
    } else {
      KeySpansAreFrom(events[..|events| - 1], since);
      NextIsFrom(events, since, KeySpans(events[..|events| - 1], since));
    }
  }

  /** What is open and no longer true ends where it began. */
  function Ended(spans: seq<Span>, dead: bool): seq<Span> {
    if dead && LastOpen(spans) then spans[|spans| - 1 := spans[|spans| - 1].(end := Some(spans[|spans| - 1].ts))] else spans
  }

  /** The main result on reading, for any log whatever: restarts that logged no clear, clears whose
      raise is out of range, and all. The annotations of a key are the spans its events begin, and
      if the last is still open and the key is not active, it ends where it began. */
  lemma AnyLogReads(events: seq<Event>, since: real, live: set<string>, key: string)
    requires key != MODEL_CHANGE
    ensures var spans := KeySpans(EventsFor(events, key), since);
            && SpansAreFrom(EventsFor(events, key), since, spans)
            && SpansFor(Settle(Decode(events, since), live), key) == Ended(spans, key !in live)
  {
    hide SpansAreFrom, Decode;
    var d := Decode(events, since);
    DecodeByKey(events, since, key);
    KeySpansAreFrom(EventsFor(events, key), since);
    SettledFor(d, live, key);
  }

  lemma SettledFor(d: Decoded, live: set<string>, key: string)
    requires Sound(d) && OpenAgrees(d, key)
    ensures SpansFor(Settle(d, live), key) == Ended(SpansFor(d.out, key), key !in live)
  {
    var out := Settle(d, live);
    if key in d.open && key !in live {
      var i := d.open[key];
      SpansForUpdate(d.out, i, out[i], key);
      SameSpansFor(out, d.out[i := out[i]], key);
    } else {
      SameSpansFor(out, d.out, key);
    }
  }

  lemma {:induction false} SameSpansFor(a: seq<Span>, b: seq<Span>, key: string)
    requires |a| == |b| && forall i :: 0 <= i < |a| ==> a[i].key == b[i].key && (a[i].key == key ==> a[i] == b[i])
    ensures SpansFor(a, key) == SpansFor(b, key)
    decreases |a|
  {
    if a == [] {
    } else {
      SameSpansFor(a[..|a| - 1], b[..|b| - 1], key);
    }
  }

  /** A dashboard that restarts while an alert holds raises it again; the reader does not see it. */
  lemma {:induction false} RaisedAgain(before: seq<Event>, e: Event, more: seq<Event>, since: real)
    requires before != [] && before[|before| - 1].state.Raised? && e.state.Raised?
    ensures KeySpans(before + [e] + more, since) == KeySpans(before + more, since)
    decreases |more|
  {
    if more == [] {
      assert before + [e] + [] == before + [e] && before + [] == before;
      assert (before + [e])[..|before|] == before;
      KeySpansAreFrom(before, since);
    } else {
      var n := |more| - 1;
      RaisedAgain(before, e, more[..n], since);
      assert (before + [e] + more)[..|before| + 1 + n] == before + [e] + more[..n];
      assert (before + more)[..|before| + n] == before + more[..n];
    }
  }

  /** A change of model is one mark each time. */
  function Mark(e: Event): Span { Span(MODEL_CHANGE, ModelMark, e.ts, None, e.level, "Model changed", e.detail) }

  lemma {:induction false} MarksAre(events: seq<Event>, since: real)
    ensures var changes := EventsFor(events, MODEL_CHANGE);
            SpansFor(Decode(events, since).out, MODEL_CHANGE) == seq(|changes|, i requires 0 <= i < |changes| => Mark(changes[i]))
    decreases |events|
  {
    hide SpansFor;
    if events == [] {
      assert SpansFor([], MODEL_CHANGE) == [] by { NoSpans(); }
    } else {
      var front, e := events[..|events| - 1], events[|events| - 1];
      MarksAre(front, since);
      var d := Decode(front, since);
      if e.key == MODEL_CHANGE {
        SpansForAppend(d.out, Mark(e), MODEL_CHANGE);
      } else if e.state.Raised? {
        SpansForAppend(d.out, Fresh(e), MODEL_CHANGE);
      } else if e.key in d.open {
        SpansForUpdate(d.out, d.open[e.key], Closed(d.out[d.open[e.key]], e), MODEL_CHANGE);
      } else {
        SpansForAppend(d.out, Orphan(e, since), MODEL_CHANGE);
      }
    }
  }

  lemma NoSpans()
    ensures SpansFor([], MODEL_CHANGE) == []
  {
  }

  // ------------------------------------------------------------- round trip --

  /** A poll as the event log sees it. */
  datatype Poll = Poll(alerts: seq<Alert>, now: real)

  function ActiveAfter(polls: seq<Poll>): map<string, Alert> {
    if polls == [] then map[] else ByKey(polls[|polls| - 1].alerts)
  }

  /** What a dashboard writes about one key, from its start: see Monitor.ReconcileAlerts. */
  function KeyLog(polls: seq<Poll>, key: string): seq<Event> {
    if polls == [] then []
    else
      var front, p := polls[..|polls| - 1], polls[|polls| - 1];
      KeyLog(front, key) + EdgeOf(ActiveAfter(front), ByKey(p.alerts), key, p.now)
  }

  /** A key's log changes with a poll exactly when its alert came or went: it came in its own words,
      or it went in those of the poll before. */
  lemma LogTellsChange(polls: seq<Poll>, p: Poll, key: string)
    ensures var was, now, log := ActiveAfter(polls), ByKey(p.alerts), KeyLog(polls, key);
            KeyLog(polls + [p], key) ==
            if key in now && key !in was then
              log + [Event(p.now, Of(now[key].level), key, now[key].title, now[key].detail, Raised)]
            else if key in was && key !in now then log + [Event(p.now, Of(was[key].level), key, was[key].title, "", Cleared)]
            else log
  {
    assert (polls + [p])[..|polls|] == polls;
  }

  predicate ActiveAt(polls: seq<Poll>, i: nat, key: string)
    requires i < |polls|
  {
    key in ByKey(polls[i].alerts)
  }

  /** The polls on which a maximal run of activity begins. */
  function Starts(polls: seq<Poll>, key: string): (starts: seq<nat>)
    ensures forall x :: 0 <= x < |starts| ==> starts[x] < |polls| && ActiveAt(polls, starts[x], key)
  {
    if polls == [] then []
    else
      var n := |polls| - 1;
      var before := Starts(polls[..n], key);
      assert forall x :: 0 <= x < |before| ==> ActiveAt(polls[..n], before[x], key) == ActiveAt(polls, before[x], key);
      if ActiveAt(polls, n, key) && (n == 0 || !ActiveAt(polls, n - 1, key)) then before + [n] else before
  }

  /** The first poll from i on without the alert. */
  function RunEnd(polls: seq<Poll>, i: nat, key: string): (j: Option<nat>)
    requires i <= |polls|
    ensures j.Some? ==> i <= j.value < |polls| && !ActiveAt(polls, j.value, key)
    ensures forall x :: i <= x < (if j.Some? then j.value else |polls|) ==> ActiveAt(polls, x, key)
    decreases |polls| - i
  {
    if i == |polls| then None else if !ActiveAt(polls, i, key) then Some(i) else RunEnd(polls, i + 1, key)
  }

  /** The span a run of activity should read as: from its first poll to the first one without it,
      with the words of its first poll. */
  function RunSpan(polls: seq<Poll>, i: nat, key: string): Span
    requires i < |polls| && ActiveAt(polls, i, key)
  {
    var j := RunEnd(polls, i, key);
    var a := ByKey(polls[i].alerts)[key];
    Span(key, KindOf(key), polls[i].now, if j.Some? then Some(polls[j.value].now) else None, Of(a.level), a.title, a.detail)
  }

  lemma {:induction false} RunEndPrefix(polls: seq<Poll>, i: nat, key: string)
    requires polls != [] && i <= |polls| - 1
    ensures var n := |polls| - 1;
            var before := RunEnd(polls[..n], i, key);
            RunEnd(polls, i, key) == if before.Some? then before else if ActiveAt(polls, n, key) then None else Some(n)
    decreases |polls| - i
  {
    var n := |polls| - 1;
    if i < n && ActiveAt(polls, i, key) {
      RunEndPrefix(polls, i + 1, key);
    }
  }

  /** Each span is its run's, and only the last can be open: when the key is active now. */
  predicate SpansAreRuns(polls: seq<Poll>, key: string, spans: seq<Span>) {
    var starts := Starts(polls, key);
    && |spans| == |starts|
    && (forall x :: 0 <= x < |spans| ==> spans[x] == RunSpan(polls, starts[x], key))
    && (forall x :: 0 <= x < |spans| - 1 ==> spans[x].end.Some?)
    && (LastOpen(spans) <==> key in ActiveAfter(polls))
  }

  /** One more poll leaves a run's span as it was, unless the run was open and ends there. */
  lemma RunSpanGrows(polls: seq<Poll>, i: nat, key: string)
    requires polls != [] && i < |polls| - 1 && ActiveAt(polls[..|polls| - 1], i, key)
    ensures var n := |polls| - 1;
            var before := RunSpan(polls[..n], i, key);
            ActiveAt(polls, i, key) && RunSpan(polls, i, key)
              == if before.end.Some? || ActiveAt(polls, n, key) then before else before.(end := Some(polls[n].now))
  {
    RunEndPrefix(polls, i, key);
  }

  lemma NextRun(polls: seq<Poll>, key: string, spans: seq<Span>, since: real)
    requires polls != [] && SpansAreRuns(polls[..|polls| - 1], key, spans)
    ensures var n := |polls| - 1;
            var edge := EdgeOf(ActiveAfter(polls[..n]), ByKey(polls[n].alerts), key, polls[n].now);
            |edge| <= 1 && SpansAreRuns(polls, key, if edge == [] then spans else NextSpans(spans, edge[0], since))
  {
    hide ByKey, RunSpan, SpansAreRuns, NextSpans;
    var n := |polls| - 1;
    assert n > 0 ==> polls[..n][n - 1] == polls[n - 1];
    if ActiveAt(polls, n, key) {
      StaysOrBegins(polls, key, spans, since);
    } else {
      EndsOrNothing(polls, key, spans, since);
    }
  }

  lemma StartsGrow(polls: seq<Poll>, key: string)
    requires polls != []
    ensures var n := |polls| - 1;
            var was := Starts(polls[..n], key);
            && (ActiveAt(polls, n, key) <==> key in ActiveAfter(polls))
            && Starts(polls, key) == if ActiveAt(polls, n, key) && key !in ActiveAfter(polls[..n]) then was + [n] else was
  {
    hide ByKey;
    var n := |polls| - 1;
    assert n > 0 ==> polls[..n][n - 1] == polls[n - 1];
  }

  /** What one more poll makes of a span. */
  function Grown(polls: seq<Poll>, key: string, a: Span): Span
    requires polls != []
  {
    if a.end.Some? || ActiveAt(polls, |polls| - 1, key) then a else a.(end := Some(polls[|polls| - 1].now))
  }

  lemma OldRun(polls: seq<Poll>, key: string, spans: seq<Span>, x: nat)
    requires polls != [] && SpansAreRuns(polls[..|polls| - 1], key, spans) && x < |spans|
    ensures var was := Starts(polls[..|polls| - 1], key);
            && |was| == |spans| && was[x] < |polls| && ActiveAt(polls, was[x], key)
            && RunSpan(polls, was[x], key) == Grown(polls, key, spans[x])
  {
    hide ByKey, RunEnd, RunSpan, Starts, ActiveAfter;
    RunSpanGrows(polls, Starts(polls[..|polls| - 1], key)[x], key);
  }

  /** What one more poll does to the runs there were. */
  predicate RunsAre(polls: seq<Poll>, key: string, spans: seq<Span>, starts: seq<nat>) {
    |spans| == |starts| &&
    forall x :: 0 <= x < |spans| ==>
      starts[x] < |polls| && ActiveAt(polls, starts[x], key) && spans[x] == RunSpan(polls, starts[x], key)
  }

  lemma OldRuns(polls: seq<Poll>, key: string, spans: seq<Span>)
    requires polls != [] && SpansAreRuns(polls[..|polls| - 1], key, spans)
    ensures RunsAre(polls, key, seq(|spans|, x requires 0 <= x < |spans| => Grown(polls, key, spans[x])),
                    Starts(polls[..|polls| - 1], key))
  {
    hide ByKey, RunEnd, RunSpan, Starts, ActiveAfter, SpansAreRuns, ActiveAt, Grown;
    var was := Starts(polls[..|polls| - 1], key);
    assert |was| == |spans| by { SpansAreAsMany(polls[..|polls| - 1], key, spans); }
    forall x | 0 <= x < |spans|
      ensures was[x] < |polls| && ActiveAt(polls, was[x], key) && RunSpan(polls, was[x], key) == Grown(polls, key, spans[x])
    {
      OldRun(polls, key, spans, x);
    }
  }

  lemma SpansAreAsMany(polls: seq<Poll>, key: string, spans: seq<Span>)
    requires SpansAreRuns(polls, key, spans)
    ensures |Starts(polls, key)| == |spans|
    ensures forall x :: 0 <= x < |spans| - 1 ==> spans[x].end.Some?
    ensures LastOpen(spans) <==> key in ActiveAfter(polls)
  {
  }

  lemma AreRuns(polls: seq<Poll>, key: string, spans: seq<Span>)
    requires RunsAre(polls, key, spans, Starts(polls, key))
    requires forall x :: 0 <= x < |spans| - 1 ==> spans[x].end.Some?
    requires LastOpen(spans) <==> key in ActiveAfter(polls)
    ensures SpansAreRuns(polls, key, spans)
  {
    hide ByKey, RunSpan, Starts, ActiveAfter, ActiveAt;
  }

  lemma StaysOrBegins(polls: seq<Poll>, key: string, spans: seq<Span>, since: real)
    requires polls != [] && SpansAreRuns(polls[..|polls| - 1], key, spans) && ActiveAt(polls, |polls| - 1, key)
    ensures var n := |polls| - 1;
            var a := ByKey(polls[n].alerts)[key];
            var e := Event(polls[n].now, Of(a.level), key, a.title, a.detail, Raised);
            SpansAreRuns(polls, key, if key in ActiveAfter(polls[..n]) then spans else NextSpans(spans, e, since))
  {
    hide ByKey, RunEnd, RunSpan, Starts, ActiveAfter, ActiveAt, SpansAreRuns;
    var n := |polls| - 1;
    var was := Starts(polls[..n], key);
    OldRuns(polls, key, spans);
    StartsGrow(polls, key);
    SpansAreAsMany(polls[..n], key, spans);
    assert seq(|spans|, x requires 0 <= x < |spans| => Grown(polls, key, spans[x])) == spans;
    if key in ActiveAfter(polls[..n]) {
      AreRuns(polls, key, spans);
    } else {
      AlertNow(polls, key);
      var a := ByKey(polls[n].alerts)[key];
      var e := Event(polls[n].now, Of(a.level), key, a.title, a.detail, Raised);
      assert !LastOpen(spans) && NextSpans(spans, e, since) == spans + [Fresh(e)];
      NewRun(polls, key, e);
      OneMoreRun(polls, key, spans, Fresh(e), was);
      AreRuns(polls, key, spans + [Fresh(e)]);
    }
  }

  lemma AlertNow(polls: seq<Poll>, key: string)
    requires polls != [] && ActiveAt(polls, |polls| - 1, key)
    ensures key in ByKey(polls[|polls| - 1].alerts)
  {
  }

  lemma OneMoreRun(polls: seq<Poll>, key: string, spans: seq<Span>, a: Span, was: seq<nat>)
    requires polls != [] && ActiveAt(polls, |polls| - 1, key) && a == RunSpan(polls, |polls| - 1, key)
    requires RunsAre(polls, key, spans, was)
    ensures RunsAre(polls, key, spans + [a], was + [|polls| - 1])
  {
    hide RunSpan, ByKey, ActiveAt;
  }

  lemma EndsOrNothing(polls: seq<Poll>, key: string, spans: seq<Span>, since: real)
    requires polls != [] && SpansAreRuns(polls[..|polls| - 1], key, spans) && !ActiveAt(polls, |polls| - 1, key)
    ensures var n := |polls| - 1;
            SpansAreRuns(polls, key,
              if key !in ActiveAfter(polls[..n]) then spans
              else
                var a := ActiveAfter(polls[..n])[key];
                NextSpans(spans, Event(polls[n].now, Of(a.level), key, a.title, "", Cleared), since))
  {
    hide ByKey, RunEnd, RunSpan, Starts, ActiveAfter, ActiveAt, SpansAreRuns;
    var n := |polls| - 1;
    var grown := seq(|spans|, x requires 0 <= x < |spans| => Grown(polls, key, spans[x]));
    OldRuns(polls, key, spans);
    StartsGrow(polls, key);
    SpansAreAsMany(polls[..n], key, spans);
    AreRuns(polls, key, grown);
    if key in ActiveAfter(polls[..n]) {
      var a := ActiveAfter(polls[..n])[key];
      var e := Event(polls[n].now, Of(a.level), key, a.title, "", Cleared);
      assert grown == NextSpans(spans, e, since);
    } else {
      assert grown == spans;
    }
  }

  lemma NewRun(polls: seq<Poll>, key: string, e: Event)
    requires polls != [] && ActiveAt(polls, |polls| - 1, key)
    requires var a := ByKey(polls[|polls| - 1].alerts)[key];
             e == Event(polls[|polls| - 1].now, Of(a.level), key, a.title, a.detail, Raised)
    ensures RunSpan(polls, |polls| - 1, key) == Fresh(e)
  {
    assert RunEnd(polls, |polls|, key) == None;
  }

  lemma {:induction false} KeyLogRoundTrip(polls: seq<Poll>, since: real, key: string)
    ensures SpansAreRuns(polls, key, KeySpans(KeyLog(polls, key), since))
    decreases |polls|
  {
    if polls == [] {
    } else {
      var n := |polls| - 1;
      var front := polls[..n];
      KeyLogRoundTrip(front, since, key);
      var log := KeyLog(front, key);
      NextRun(polls, key, KeySpans(log, since), since);
      var edge := EdgeOf(ActiveAfter(front), ByKey(polls[n].alerts), key, polls[n].now);
      if edge == [] {
        assert log + edge == log;
      } else {
        assert (log + edge)[..|log|] == log;
      }
    }
  }

  /** The main result: over one dashboard lifetime, whatever else is in the log, the annotations of
      a key are exactly its maximal runs of activity, in order, and one is open exactly when the
      key is active now. */
  lemma EventLogRoundTrip(polls: seq<Poll>, log: seq<Event>, since: real, live: set<string>, key: string)
    requires key != MODEL_CHANGE && EventsFor(log, key) == KeyLog(polls, key)
    requires key in live <==> key in ActiveAfter(polls)
    ensures SpansAreRuns(polls, key, SpansFor(Settle(Decode(log, since), live), key))
  {
    hide SpansAreRuns;
    var d := Decode(log, since);
    DecodeByKey(log, since, key);
    KeyLogRoundTrip(polls, since, key);
    assert LastOpen(SpansFor(d.out, key)) <==> key in ActiveAfter(polls) by {
      LastOpenIsActive(polls, key, SpansFor(d.out, key));
    }
    SameSpansFor(Settle(d, live), d.out, key);
  }

  lemma LastOpenIsActive(polls: seq<Poll>, key: string, spans: seq<Span>)
    requires SpansAreRuns(polls, key, spans)
    ensures LastOpen(spans) <==> key in ActiveAfter(polls)
  {
  }

  // ------------------------------------------------------------- end to end --

  /** A key of an alert: what else is logged has keys of its own. */
  predicate AlertKey(key: string) { key != MODEL_CHANGE && key != TRANSITION }

  /** What else one poll logs: a change of model, an edge of a transition. */
  predicate Elsewhere(events: seq<Event>) { forall e :: e in events ==> !AlertKey(e.key) }

  /** A dashboard's life: each poll logs its other events, then its edges. */
  method Watch(polls: seq<Poll>, others: seq<seq<Event>>) returns (m: Monitor)
    requires |others| == |polls| && forall i :: 0 <= i < |others| ==> Elsewhere(others[i])
    ensures fresh(m) && m.active == ActiveAfter(polls)
    ensures forall key :: AlertKey(key) ==> EventsFor(m.log, key) == KeyLog(polls, key)
  {
    m := new Monitor();
    for i := 0 to |polls|
      invariant fresh(m) && m.active == ActiveAfter(polls[..i])
      invariant forall key :: AlertKey(key) ==> EventsFor(m.log, key) == KeyLog(polls[..i], key)
    {
      hide EventsFor, ByKey, EdgeOf, AlertKey;
      for j := 0 to |others[i]|
        invariant fresh(m) && m.active == ActiveAfter(polls[..i])
        invariant forall key :: AlertKey(key) ==> EventsFor(m.log, key) == KeyLog(polls[..i], key)
      {
        m.Append(others[i][j]);
      }
      assert polls[..i + 1][..i] == polls[..i];
      m.ReconcileAlerts(polls[i].alerts, polls[i].now);
    }
    assert polls[..|polls|] == polls;
  }

  /** The main result end to end: what the page shows of a dashboard's life is, for every alert,
      exactly the maximal runs of polls on which it was active. */
  method Annotated(polls: seq<Poll>, others: seq<seq<Event>>, since: real, moving: bool) returns (out: seq<Span>)
    requires |others| == |polls| && forall i :: 0 <= i < |others| ==> Elsewhere(others[i])
    ensures forall key :: AlertKey(key) ==> SpansAreRuns(polls, key, SpansFor(out, key))
  {
    var m := Watch(polls, others);
    var live := m.active.Keys + if moving then {TRANSITION} else {};
    out := BuildAnnotations(m.log, since, live);
    forall key | AlertKey(key) ensures SpansAreRuns(polls, key, SpansFor(out, key)) {
      EventLogRoundTrip(polls, m.log, since, live, key);
    }
  }
}
