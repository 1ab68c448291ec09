/** The parser's state read off the log's history (agent/inferenceinquire_agent/journal/parser.py):
    for each thing it keeps, the last line that says it since the line that forgets it. Nothing here
    steps through a tracker. */
module JournalHistory {

  import opened Basics
  import opened Journal

  /** What the last line to say something says, unless a later line forgets it. */
  function LastSince<A>(log: seq<Entry>, forgets: Entry -> bool, says: Entry -> Option<A>): Option<A> {
    if log == [] then None
    else
      var e := log[|log| - 1];
      if says(e).Some? then says(e) else if forgets(e) then None else LastSince(log[..|log| - 1], forgets, says)
  }

  predicate LastSays<A>(log: seq<Entry>, forgets: Entry -> bool, says: Entry -> Option<A>, i: nat)
    requires i < |log|
  {
    says(log[i]).Some? && forall j :: i < j < |log| ==> says(log[j]).None? && !forgets(log[j])
  }

  /** Plainly: there is a line that says it, after which none says it and none forgets it. */
  lemma {:induction false} LastSinceIs<A>(log: seq<Entry>, forgets: Entry -> bool, says: Entry -> Option<A>)
    ensures LastSince(log, forgets, says).Some? ==>
      exists i :: 0 <= i < |log| && LastSays(log, forgets, says, i) && says(log[i]) == LastSince(log, forgets, says)
    ensures forall i :: 0 <= i < |log| && LastSays(log, forgets, says, i) ==> LastSince(log, forgets, says) == says(log[i])
    decreases |log|
  {
    if log == [] {
    } else {
      var n := |log| - 1;
      LastSinceIs(log[..n], forgets, says);
      if says(log[n]).Some? {
        assert LastSays(log, forgets, says, n);
      } else if !forgets(log[n]) && LastSince(log[..n], forgets, says).Some? {
        var i :| 0 <= i < n && LastSays(log[..n], forgets, says, i) && says(log[..n][i]) == LastSince(log[..n], forgets, says);
        assert log[..n][i] == log[i];
        assert LastSays(log, forgets, says, i) by {
          forall j | i < j < |log| ensures says(log[j]).None? && !forgets(log[j]) { if j < n { assert log[..n][j] == log[j]; } }
        }
      }
      forall i | 0 <= i < |log| && LastSays(log, forgets, says, i) ensures LastSince(log, forgets, says) == says(log[i]) {
        if i < n {
          assert says(log[n]).None? && !forgets(log[n]);
          assert log[..n][i] == log[i] && LastSays(log[..n], forgets, says, i);
        }
      }
    }
  }

  // -------------------------------------------------------- a request under way --

  /** A launch starts a task's record anew, a release ends it, and a load drops it. */
  function Drops(task: int): Entry -> bool {
    (e: Entry) => e.line.Loading? || (e.line.Launch? && e.line.task == task) || (e.line.Release? && e.line.task == task)
  }

  function SaysPrompt(task: int): Entry -> Option<(real, nat, real)> {
    (e: Entry) => if e.line.Prompt? && e.line.task == task then Some((e.line.ms, e.line.tokens, e.line.tps)) else None
  }

  function SaysEval(task: int): Entry -> Option<(real, nat, real)> {
    (e: Entry) => if e.line.Eval? && e.line.task == task then Some((e.line.ms, e.line.tokens, e.line.tps)) else None
  }

  function SaysTotal(task: int): Entry -> Option<(real, nat)> {
    (e: Entry) => if e.line.Total? && e.line.task == task then Some((e.line.ms, e.line.tokens)) else None
  }

  function SaysDraft(task: int): Entry -> Option<(real, nat, nat, real)> {
    (e: Entry) => if e.line.Draft? && e.line.task == task
                  then Some((e.line.accept, e.line.accepted, e.line.drafted, e.line.meanLen)) else None
  }

  function SaysGraphs(task: int): Entry -> Option<nat> {
    (e: Entry) => if e.line.Graphs? && e.line.task == task then Some(e.line.reused) else None
  }

  function SaysTimed(task: int): Entry -> Option<real> {
    (e: Entry) => if (e.line.Prompt? || e.line.Eval?) && e.line.task == task then Some(e.ts) else None
  }

  function SaysLaunched(task: int): Entry -> Option<real> {
    (e: Entry) => if e.line.Launch? && e.line.task == task then Some(e.ts) else None
  }

  /** The slot's pick that no launch has used yet. */
  function Unused(slot: nat): Entry -> bool {
    (e: Entry) => e.line.Loading? || (e.line.Launch? && e.line.slot == slot)
  }

  function SaysPick(slot: nat): Entry -> Option<Pick> {
    (e: Entry) =>
      if e.line.PickLcp? && e.line.slot == slot then Some(FromCache(e.line.similarity, e.line.keep))
      else if e.line.PickLru? && e.line.slot == slot then Some(LeastRecent)
      else None
  }

  function NextPick(log: seq<Entry>, slot: nat): Option<Pick> {
    LastSince(log, Unused(slot), SaysPick(slot))
  }

  /** The pick a task was launched with: its slot's last before the launch. */
  function LaunchPick(log: seq<Entry>, task: int): Option<Pick> {
    if log == [] then None
    else
      var front, e := log[..|log| - 1], log[|log| - 1];
      if e.line.Launch? && e.line.task == task then NextPick(front, e.line.slot)
      else if Drops(task)(e) then None
      else LaunchPick(front, task)
  }

  /** The slot of the first line that wrote to a task's record. */
  function FirstSlot(log: seq<Entry>, task: int): Option<nat> {
    if log == [] then None
    else
      var front, e := log[..|log| - 1], log[|log| - 1];
      var before := FirstSlot(front, task);
      if e.line.Launch? && e.line.task == task then Some(e.line.slot)
      else if Drops(task)(e) then None
      else if before.Some? then before
      else if Records(e.line) && e.line.task == task then Some(e.line.slot)
      else None
  }

  predicate Records(line: Line) {
    line.Prompt? || line.Eval? || line.Total? || line.Draft? || line.Graphs?
  }

  /** A task's record as its lines tell it; the slot given is for when no line has named one. */
  function Told(log: seq<Entry>, task: int, slot: nat): Request {
    Request(task, FirstSlot(log, task).Or(slot), LastSince(log, Drops(task), SaysTimed(task)),
            LastSince(log, Drops(task), SaysLaunched(task)), LaunchPick(log, task),
            LastSince(log, Drops(task), SaysPrompt(task)), LastSince(log, Drops(task), SaysEval(task)),
            LastSince(log, Drops(task), SaysTotal(task)), LastSince(log, Drops(task), SaysDraft(task)),
            LastSince(log, Drops(task), SaysGraphs(task)), None, None, None, None)
  }

  lemma ToldStep(front: seq<Entry>, e: Entry, task: int, slot: nat)
    ensures var log := front + [e];
            var w := Writes(e.line);
            && (e.line.Loading? || (e.line.Release? && e.line.task == task) ==>
                  FirstSlot(log, task).None? && Told(log, task, slot) == NewRequest(task, slot))
            && (w.Some? && w.value.1 == task && !e.line.Release? ==>
                  && FirstSlot(log, task).Some?
                  && Told(log, task, slot) == Written(Told(front, task, w.value.0), NextPick(front, w.value.0), e))
            && (!e.line.Loading? && (w.Some? ==> w.value.1 != task) ==>
                  FirstSlot(log, task) == FirstSlot(front, task) && Told(log, task, slot) == Told(front, task, slot))
  {
    assert (front + [e])[..|front|] == front;
  }

  /** The parser's record of a task is the one its lines tell. */
  predicate RecordIsTold(t: Tracker, log: seq<Entry>, task: int, slot: nat) {
    (task in t.pending <==> FirstSlot(log, task).Some?) && PendingAt(t, task, slot) == Told(log, task, slot)
  }

  // ------------------------------------------------------------------ a slot --

  /** A load forgets every slot. */
  function Loads(): Entry -> bool { (e: Entry) => e.line.Loading? }

  function SaysTask(slot: nat): Entry -> Option<Option<int>> {
    (e: Entry) =>
      if (e.line.Tg? || e.line.Launch?) && e.line.slot == slot then Some(Some(e.line.task))
      else if e.line.Release? && e.line.slot == slot then Some(None)
      else None
  }

  function SaysPhase(slot: nat): Entry -> Option<Phase> {
    (e: Entry) =>
      if e.line.Launch? && e.line.slot == slot then Some(Prefill)
      else if (e.line.Tg? || e.line.Prompt?) && e.line.slot == slot then Some(Decode)
      else if e.line.Release? && e.line.slot == slot then Some(Idle)
      else None
  }

  function SaysAlive(slot: nat): Entry -> Option<real> {
    (e: Entry) =>
      if (e.line.Launch? || e.line.Tg? || e.line.Prompt? || e.line.Release?) && e.line.slot == slot then Some(e.ts) else None
  }

  function SaysGenerated(slot: nat): Entry -> Option<nat> {
    (e: Entry) =>
      if e.line.Tg? && e.line.slot == slot then Some(e.line.generated)
      else if e.line.Launch? && e.line.slot == slot then Some(0)
      else None
  }

  function SaysRate(slot: nat): Entry -> Option<real> {
    (e: Entry) => if e.line.Tg? && e.line.slot == slot then Some(e.line.rate) else None
  }

  function SaysRate3s(slot: nat): Entry -> Option<real> {
    (e: Entry) => if e.line.Tg? && e.line.slot == slot then Some(e.line.rate3s) else None
  }

  function SaysStarted(slot: nat): Entry -> Option<real> {
    (e: Entry) => if e.line.Launch? && e.line.slot == slot then Some(e.ts) else None
  }

  function SaysChild(slot: nat): Entry -> Option<bool> {
    (e: Entry) => if e.line.Launch? && e.line.slot == slot then Some(e.line.child) else None
  }

  /** The pick the slot's last launch was made with. */
  function UsedPick(log: seq<Entry>, slot: nat): Option<Pick> {
    if log == [] then None
    else
      var front, e := log[..|log| - 1], log[|log| - 1];
      if e.line.Launch? && e.line.slot == slot then NextPick(front, slot)
      else if e.line.Loading? then None
      else UsedPick(front, slot)
  }

  /** A slot as its lines since the last load tell it. */
  function Live(log: seq<Entry>, slot: nat): Slot {
    Slot(slot, LastSince(log, Loads(), SaysTask(slot)).Or(None), LastSince(log, Loads(), SaysPhase(slot)),
         LastSince(log, Loads(), SaysAlive(slot)), LastSince(log, Loads(), SaysGenerated(slot)),
         LastSince(log, Loads(), SaysRate(slot)), LastSince(log, Loads(), SaysRate3s(slot)),
         LastSince(log, Loads(), SaysStarted(slot)), UsedPick(log, slot), LastSince(log, Loads(), SaysChild(slot)),
         NextPick(log, slot))
  }

  /** Lines that mention the slot; the timings of a request but its prompt's do not touch it. */
  function SaysAnything(slot: nat): Entry -> Option<bool> {
    (e: Entry) => if OfSlot(e.line, slot) && (!Records(e.line) || e.line.Prompt?) then Some(true) else None
  }

  predicate Known(log: seq<Entry>, slot: nat) {
    LastSince(log, Loads(), SaysAnything(slot)).Some?
  }

  /** The parser's slot is the one its lines tell. */
  predicate SlotIsTold(t: Tracker, log: seq<Entry>, slot: nat) {
    (slot in t.slots <==> Known(log, slot)) && SlotAt(t, slot) == Live(log, slot)
  }

  lemma OthersLeaveIt(front: seq<Entry>, e: Entry, slot: nat)
    requires !OfSlot(e.line, slot) && !e.line.Loading?
    ensures Live(front + [e], slot) == Live(front, slot)
  {
    assert (front + [e])[..|front|] == front;
  }

  lemma RecordsLeaveIt(front: seq<Entry>, e: Entry, slot: nat)
    requires OfSlot(e.line, slot) && Records(e.line) && !e.line.Prompt?
    ensures Live(front + [e], slot) == Live(front, slot)
  {
    assert (front + [e])[..|front|] == front;
  }

  lemma OwnLine(front: seq<Entry>, e: Entry, slot: nat)
    requires e.line.Loading? || (OfSlot(e.line, slot) && (!Records(e.line) || e.line.Prompt?))
    ensures Live(front + [e], slot) == SlotAt(Track(Tracker(map[slot := Live(front, slot)], map[], []), e), slot)
  {
    assert (front + [e])[..|front|] == front;
  }

  lemma SlotStep(t: Tracker, front: seq<Entry>, e: Entry, slot: nat)
    requires SlotIsTold(t, front, slot)
    ensures SlotIsTold(Track(t, e), front + [e], slot)
  {
    hide Live;
    assert (front + [e])[..|front|] == front;
    if !OfSlot(e.line, slot) && !e.line.Loading? {
      OthersLeaveIt(front, e, slot);
    } else if Records(e.line) && !e.line.Prompt? {
      RecordsLeaveIt(front, e, slot);
    } else {
      OwnLine(front, e, slot);
    }
  }

  lemma RecordStep(t: Tracker, front: seq<Entry>, e: Entry, task: int, slot: nat)
    requires forall s :: RecordIsTold(t, front, task, s)
    requires forall s :: SlotIsTold(t, front, s)
    ensures RecordIsTold(Track(t, e), front + [e], task, slot)
  {
    hide Track, Told, Written;
    PendingAfter(t, e);
    ToldStep(front, e, task, slot);
    var w := Writes(e.line);
    if w.Some? {
      assert RecordIsTold(t, front, task, w.value.0) && SlotIsTold(t, front, w.value.0);
    }
    assert RecordIsTold(t, front, task, slot);
  }

  // ---------------------------------------------------------- what is completed --

  /** From launch to release; a record without a launch, or launched at 0, has none. */
  function WallTime(started: Option<real>, finished: real): Option<real> {
    if started == None || started == Some(0.0) then None else Some(finished - started.value)
  }

  /** The requests a log releases, newest first: each as its lines tell it up to its release. */
  function ReleasedIn(log: seq<Entry>): seq<Request> {
    if log == [] then []
    else
      var front, e := log[..|log| - 1], log[|log| - 1];
      match e.line
      case Release(s, task, tokens, truncated) =>
        var r := Told(front, task, s);
        [r.(tokens := Some(tokens), truncated := Some(truncated), finished := Some(e.ts), wall := WallTime(r.started, e.ts))]
        + ReleasedIn(front)
      case _ => ReleasedIn(front)
  }

  /** All of it at once. */
  ghost predicate TrackerIsTold(t: Tracker, log: seq<Entry>) {
    && (forall slot :: SlotIsTold(t, log, slot))
    && (forall task, slot :: RecordIsTold(t, log, task, slot))
    && t.done == ReleasedIn(log)
  }

  lemma DoneStep(t: Tracker, front: seq<Entry>, e: Entry)
    requires TrackerIsTold(t, front)
    ensures Track(t, e).done == ReleasedIn(front + [e])
  {
    hide Told, LastSince;
    assert (front + [e])[..|front|] == front;
    if e.line.Release? {
      assert RecordIsTold(t, front, e.line.task, e.line.slot);
      assert Told(front, e.line.task, e.line.slot).wall == None by { NoWallYet(front, e.line.task, e.line.slot); }
    }
  }

  lemma NoWallYet(log: seq<Entry>, task: int, slot: nat)
    ensures Told(log, task, slot).wall == None
  {
  }

  /** The main result on requests and slots: every field the parser holds of a slot, of a request
      under way and of a completed one is that of the last line that says it, since the line that
      started the record or forgot it. */
  lemma {:induction false} TrackRunIsTold(log: seq<Entry>)
    ensures TrackerIsTold(TrackRun(log), log)
    decreases |log|
  {
    hide Track, Told, Live, RecordIsTold, SlotIsTold;
    if log == [] {
      NothingTold();
    } else {
      var front, e := log[..|log| - 1], log[|log| - 1];
      assert log == front + [e];
      TrackRunIsTold(front);
      var t := TrackRun(front);
      forall slot ensures SlotIsTold(Track(t, e), log, slot) { SlotStep(t, front, e, slot); }
      forall task, slot ensures RecordIsTold(Track(t, e), log, task, slot) { RecordStep(t, front, e, task, slot); }
      DoneStep(t, front, e);
    }
  }

  lemma NothingTold()
    ensures TrackerIsTold(FRESH_TRACKER, [])
  {
  }

  // ------------------------------------------------------------ the load record --

  function SaysState(): Entry -> Option<LoadState> {
    (e: Entry) => if e.line.Loading? then Some(InProgress) else if e.line.Loaded? then Some(Complete) else None
  }

  function SaysLoading(): Entry -> Option<real> { (e: Entry) => if e.line.Loading? then Some(e.ts) else None }

  function SaysPath(): Entry -> Option<string> { (e: Entry) => if e.line.Loading? then Some(e.line.path) else None }

  function SaysLoaded(): Entry -> Option<real> { (e: Entry) => if e.line.Loaded? then Some(e.ts) else None }

  /** The lines since the last load began, or all of them. */
  function SinceLoad(log: seq<Entry>): seq<Entry> {
    if log == [] || log[|log| - 1].line.Loading? then []
    else SinceLoad(log[..|log| - 1]) + [log[|log| - 1]]
  }

  predicate Warns(log: seq<Entry>, w: string) {
    exists i :: 0 <= i < |log| && log[i].line == Oom(w)
  }

  /** The different warnings of some lines, as they first come. */
  function Warnings(log: seq<Entry>): seq<string> {
    if log == [] then []
    else
      var front, e := log[..|log| - 1], log[|log| - 1];
      if e.line.Oom? && !Warns(front, e.line.warning) then Warnings(front) + [e.line.warning] else Warnings(front)
  }

  function LoadTold(log: seq<Entry>): Load {
    var started, finished := LastSince(log, Loads(), SaysLoading()), LastSince(log, Loads(), SaysLoaded());
    Load(LastSince(log, Loads(), SaysState()).Or(Unknown), started, finished, LastSince(log, Loads(), SaysPath()),
         if finished.Some? then WallTime(started, finished.value) else None, Warnings(SinceLoad(log)))
  }

  lemma {:induction false} WarningsAre(log: seq<Entry>, w: string)
    ensures w in Warnings(log) <==> Warns(log, w)
    decreases |log|
  {
    if log == [] {
    } else {
      var front, e := log[..|log| - 1], log[|log| - 1];
      WarningsAre(front, w);
      assert log == front + [e];
      if Warns(front, w) {
        var i :| 0 <= i < |front| && front[i].line == Oom(w);
        assert log[i] == front[i];
      } else if Warns(log, w) {
        var i :| 0 <= i < |log| && log[i].line == Oom(w);
        assert i == |front|;
      }
    }
  }

  /** The load record too: its state, times, path and time taken since the last load began, and each
      warning since then once. */
  lemma {:induction false} LoadRunIsTold(log: seq<Entry>)
    ensures LoadRun(FRESH_LOAD, log) == LoadTold(log)
    decreases |log|
  {
    if log == [] {
    } else {
      var front, e := log[..|log| - 1], log[|log| - 1];
      LoadRunIsTold(front);
      if e.line.Oom? {
        WarningsAre(SinceLoad(front), e.line.warning);
      }
      assert (SinceLoad(front) + [e])[..|SinceLoad(front)|] == SinceLoad(front);
    }
  }

  // ------------------------------------------------------------------ the events --

  /** What each line tells the page, from the lines before it. */
  function EventsTold(log: seq<Entry>): seq<Emitted> {
    if log == [] then []
    else
      var front, e := log[..|log| - 1], log[|log| - 1];
      EventsTold(front) +
      match e.line
      case Launch(s, task, _) => [Launched(e.ts, s, task, NextPick(front, s))]
      case Release(s, task, _, _) =>
        var eval := LastSince(front, Drops(task), SaysEval(task));
        [Released(e.ts, s, task, if eval.Some? then Some(eval.value.1) else None)]
      case Loading(_) => [LoadBegun(e.ts)]
      case Loaded => [LoadEnded(e.ts)]
      case Oom(w) => if Warns(SinceLoad(front), w) then [] else [Warned(e.ts, w)]
      case _ => []
  }

  lemma {:induction false} EmissionsAreTold(log: seq<Entry>)
    ensures Emissions(log) == EventsTold(log)
    decreases |log|
  {
    hide TrackRun, LoadRun, LastSince, Warnings, Warns, SinceLoad;
    if log == [] {
    } else {
      var front, e := log[..|log| - 1], log[|log| - 1];
      EmissionsAreTold(front);
      TrackRunIsTold(front);
      LoadRunIsTold(front);
      match e.line {
        case Launch(s, _, _) => assert SlotIsTold(TrackRun(front), front, s);
        case Release(s, task, _, _) => assert RecordIsTold(TrackRun(front), front, task, s);
        case Oom(w) => WarningsAre(SinceLoad(front), w);
        case _ =>
      }
      assert EventsTold(front) + [] == EventsTold(front);
    }
  }

  // --------------------------------------------------------------- reading a log --

  function SaysLimit(): Entry -> Option<real> {
    (e: Entry) => if e.line.CacheSkip? then Some(e.line.limit) else None
  }

  function Never(): Entry -> bool { (e: Entry) => false }

  /** The parser is where the specification is after the log. */
  ghost predicate InStep(j: JournalParser, log: seq<Entry>)
    reads j
  {
    && j.Valid() && j.Tracked() == TrackRun(log)
    && Meter(j.counters, j.countHwm) == MeterRun(FRESH_METER, log)
    && j.load == LoadRun(FRESH_LOAD, log)
    && j.events == Latest(Emissions(log)) && j.linesSeen == |log|
    && j.cacheLimit == LastSince(log, Never(), SaysLimit())
    && forall name :: CountIn(j.matched, name) == Lines(log, OfPattern(name))
  }

  lemma LatestSnoc(events: seq<Emitted>, x: Emitted)
    ensures Latest(Latest(events) + [x]) == Latest(events + [x])
  {
  }

  lemma MatchedIsLines(matched: map<string, nat>, front: seq<Entry>, e: Entry)
    requires forall name :: CountIn(matched, name) == Lines(front, OfPattern(name))
    ensures forall name :: CountIn(Matched(matched, e.line), name) == Lines(front + [e], OfPattern(name))
  {
    assert (front + [e])[..|front|] == front;
  }

  lemma LimitIsLast(front: seq<Entry>, e: Entry)
    ensures LastSince(front + [e], Never(), SaysLimit())
         == if e.line.CacheSkip? then Some(e.line.limit) else LastSince(front, Never(), SaysLimit())
  {
    assert (front + [e])[..|front|] == front;
  }

  /** What the parser holds after a log, by the log's own history: slots, requests and the load
      record, the last cache limit, the latest of the events, and how many lines matched each
      pattern. The counters are those of the log's signals, of which CountsAllIff says when they are
      all. */
  ghost predicate HasRead(j: JournalParser, log: seq<Entry>)
    reads j
  {
    && j.requests == Newest(ReleasedIn(log))
    && (forall slot :: slot in j.slots <==> Known(log, slot))
    && (forall slot :: SlotAt(j.Tracked(), slot) == Live(log, slot))
    && (forall task, slot :: PendingAt(j.Tracked(), task, slot) == Told(log, task, slot))
    && (forall task :: task in j.pending <==> FirstSlot(log, task).Some?)
    && j.load == LoadTold(log)
    && (Ticking(log) <==> j.counters == Tally(log))
    && j.cacheLimit == LastSince(log, Never(), SaysLimit())
    && j.events == Latest(EventsTold(log))
    && j.linesSeen == |log| && forall name :: CountIn(j.matched, name) == Lines(log, OfPattern(name))
  }

  lemma StepIsHistory(j: JournalParser, log: seq<Entry>)
    requires InStep(j, log)
    ensures HasRead(j, log)
  {
    hide TrackRun, LoadRun, Emissions, MeterRun, Told, Live, ReleasedIn, EventsTold, LoadTold, Known, Ticking, FirstSlot, Lines;
    TrackRunIsTold(log);
    LoadRunIsTold(log);
    EmissionsAreTold(log);
    CountsAllIff(log);
    forall slot ensures slot in j.slots <==> Known(log, slot) { assert SlotIsTold(j.Tracked(), log, slot); }
    forall slot ensures SlotAt(j.Tracked(), slot) == Live(log, slot) { assert SlotIsTold(j.Tracked(), log, slot); }
    forall task ensures task in j.pending <==> FirstSlot(log, task).Some? { assert RecordIsTold(j.Tracked(), log, task, 0); }
    forall task, slot ensures PendingAt(j.Tracked(), task, slot) == Told(log, task, slot) {
      assert RecordIsTold(j.Tracked(), log, task, slot);
    }
  }

  lemma OneMoreLine(front: seq<Entry>, e: Entry)
    ensures var log, t, l := front + [e], TrackRun(front), LoadRun(FRESH_LOAD, front);
            && TrackRun(log) == Track(t, e) && LoadRun(FRESH_LOAD, log) == LoadAfter(l, e)
            && MeterRun(FRESH_METER, log) == Metered(MeterRun(FRESH_METER, front), e)
            && Latest(Emissions(log)) == WithEvent(Latest(Emissions(front)), Emission(t, l, e))
  {
    hide Track, LoadAfter, Metered, Emission, Latest;
    assert (front + [e])[..|front|] == front;
    var x := Emission(TrackRun(front), LoadRun(FRESH_LOAD, front), e);
    if x.Some? {
      LatestSnoc(Emissions(front), x.value);
    }
  }

  method ReadLine(j: JournalParser, ghost front: seq<Entry>, e: Entry)
    requires InStep(j, front)
    modifies j
    ensures InStep(j, front + [e])
  {
    hide Track, TrackRun, LoadAfter, LoadRun, Metered, MeterRun, Emission, Emissions, Newest, Latest, WithEvent, LastSince, Lines,
      Matched, PatternOf;
    OneMoreLine(front, e);
    MatchedIsLines(j.matched, front, e);
    LimitIsLast(front, e);
    j.Ingest(e);
  }

  method FreshParser() returns (j: JournalParser)
    ensures fresh(j) && InStep(j, [])
  {
    hide Newest;
    j := new JournalParser();
  }

  /** A fresh parser fed a log holds what the log's own history says. */
  method ReadLog(log: seq<Entry>) returns (j: JournalParser)
    ensures fresh(j) && HasRead(j, log)
  {
    hide *;
    j := FreshParser();
    assert log[..0] == [];
    for i := 0 to |log|
      invariant fresh(j) && InStep(j, log[..i])
    {
      assert log[..i + 1] == log[..i] + [log[i]];
      ReadLine(j, log[..i], log[i]);
    }
    assert log[..|log|] == log;
    StepIsHistory(j, log);
  }
}
