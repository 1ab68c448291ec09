/** The journal follower's two threads (agent/inferenceinquire_agent/journal/follower.py and
    runtimes/streams.py): a reader that tails the serving unit's log, a watchdog that ends the
    tail when another unit serves, and a third thread that takes snapshots of the parser. */
module Follower {

  import opened Basics

  type Unit = nat

  datatype Target = Target(ctid: nat, unit: Unit)

  datatype Thread = Reader | Watchdog | Server

  datatype Stream = Stream(target: Target, stopped: bool, closed: bool)

  /** Where run() is. */
  datatype ReaderPc =
    | Top                     // reads the cache and decides
    | WantSpawn(t: Target)    // about to take proc_lock in _spawn
    | Closing(t: Target)      // in _spawn: ends the old tail
    | Resetting(t: Target)    // in _spawn: forgets the load record if the target is another
    | InReset(t: Target)      // holds the parser's lock
    | Following(t: Target)    // in _spawn: starts the new tail
    | LeaveSpawn              // releases proc_lock
    | Attach                  // about to iterate over the stream
    | Reading(i: nat)         // blocked in a read, holding the pipe's lock
    | WantIngest(i: nat)      // has a line, about to take the parser's lock
    | Ingesting(i: nat)       // holds the parser's lock
    | CheckUnit(i: nat)       // compares the active unit with the one followed
    | WantKill                // the finally block: about to take proc_lock
    | Killing                 // closes the pipe

  /** Where watch_target() is; it read the active unit before it took the lock. */
  datatype WatchdogPc =
    | Asleep
    | WantCheck(now: Option<Unit>)
    | Checking(now: Option<Unit>)
    | Stopping
    | LeaveCheck

  /** `proc` is who holds proc_lock, `parser` who holds the parser's, and `pipe` who holds the
      buffered reader's own lock, which a blocked read keeps and closing waits for. `sources` are the
      targets whose lines have gone into the load record since it was last reset. */
  datatype State = State(
    ctid: Option<nat>, unit: Option<Unit>,
    reader: ReaderPc, watchdog: WatchdogPc, snapshotting: bool,
    proc: Option<Thread>, parser: Option<Thread>, pipe: Option<Thread>,
    streams: seq<Stream>, stream: Option<nat>, target: Option<Target>, attached: bool,
    sources: set<Target>)

  const START := State(None, None, Top, Asleep, false, None, None, None, [], None, None, false, {})

  // ------------------------------------------------------------------- steps --

  /** How the world answers the reader: a line or the end of the stream, a tail that starts. */
  datatype Choice = Go | Line | End | Fails

  predicate ReaderCan(s: State, c: Choice) {
    match s.reader
    case WantSpawn(_) => c == Go && s.proc.None?
    case Closing(_) => c == Go && (s.stream.None? || s.pipe.None?)
    case Killing => c == Go && (s.stream.None? || s.pipe.None?)
    case Resetting(t) => c == Go && (s.target == Some(t) || s.parser.None?)
    case Following(_) => c == Go || c == Fails
    case Attach => c == Go && s.stream.Some? && s.pipe.None?
    case CheckUnit(_) => c == Go && s.pipe.None?
    case Reading(i) => c == Line || c == End
    case WantIngest(_) => c == Go && s.parser.None?
    case Ingesting(i) => c == Go && i < |s.streams|
    case WantKill => c == Go && s.proc.None?
    case _ => c == Go
  }

  /** stream.close(): ends the tail if it is not yet, then closes the pipe. */
  function Close(s: State): (r: State)
    ensures r.proc == s.proc && r.parser == s.parser && r.pipe == s.pipe && r.watchdog == s.watchdog && r.snapshotting == s.snapshotting
  {
    if s.stream.None? || s.stream.value >= |s.streams| then s.(stream := None, attached := false)
    else
      var i := s.stream.value;
      s.(streams := s.streams[i := s.streams[i].(stopped := true, closed := true)], stream := None, attached := false)
  }

  function ReaderStep(s: State, c: Choice): State
    requires ReaderCan(s, c)
  {
    match s.reader
    case Top =>
      if s.ctid.None? || s.unit.None? then s
      else
        var t := Target(s.ctid.value, s.unit.value);
        s.(reader := if s.target != Some(t) || s.stream.None? then WantSpawn(t) else Attach)
    case WantSpawn(t) => s.(proc := Some(Reader), reader := Closing(t))
    case Closing(t) => Close(s).(reader := Resetting(t))
    case Resetting(t) =>
      if s.target == Some(t) then s.(reader := Following(t)) else s.(parser := Some(Reader), reader := InReset(t))
    case InReset(t) => s.(parser := None, sources := {}, reader := Following(t))
    case Following(t) =>
      if c == Fails then s.(stream := None, reader := LeaveSpawn)
      else
        s.(streams := s.streams + [Stream(t, false, false)], stream := Some(|s.streams|), target := Some(t),
           reader := LeaveSpawn)
    case LeaveSpawn => s.(proc := None, reader := if s.stream.None? then Top else Attach)
    case Attach => s.(attached := true, pipe := Some(Reader), reader := Reading(s.stream.value))
    case Reading(i) => s.(pipe := None, reader := if c == Line then WantIngest(i) else WantKill)
    case WantIngest(i) => s.(parser := Some(Reader), reader := Ingesting(i))
    case Ingesting(i) => s.(parser := None, sources := s.sources + {s.streams[i].target}, reader := CheckUnit(i))
    case CheckUnit(i) =>
      if s.unit.Some? && (s.target.None? || s.unit.value != s.target.value.unit) then s.(reader := WantKill)
      else s.(pipe := Some(Reader), reader := Reading(i))
    case WantKill => s.(proc := Some(Reader), reader := Killing)
    case Killing => Close(s).(proc := None, reader := Top)
  }

  predicate WatchdogCan(s: State) {
    s.watchdog.WantCheck? ==> s.proc.None?
  }

  /** stream.stop(): ends the tail and leaves the pipe to the reader. */
  function Stop(s: State): (r: State)
    ensures r.proc == s.proc && r.parser == s.parser && r.pipe == s.pipe && r.reader == s.reader && r.snapshotting == s.snapshotting
  {
    if s.stream.None? || s.stream.value >= |s.streams| then s
    else s.(streams := s.streams[s.stream.value := s.streams[s.stream.value].(stopped := true)])
  }

  function WatchdogStep(s: State): State
    requires WatchdogCan(s)
  {
    match s.watchdog
    case Asleep => s.(watchdog := WantCheck(s.unit))
    case WantCheck(now) => s.(proc := Some(Watchdog), watchdog := Checking(now))
    case Checking(now) =>
      s.(watchdog := if now.Some? && s.target.Some? && now.value != s.target.value.unit then Stopping else LeaveCheck)
    case Stopping => Stop(s).(watchdog := LeaveCheck)
    case LeaveCheck => s.(proc := None, watchdog := Asleep)
  }

  datatype Event =
    | Reads(c: Choice)
    | Watches
    | Snapshots
    | Switches(ctid: Option<nat>, unit: Option<Unit>)

  predicate Enabled(s: State, e: Event) {
    match e
    case Reads(c) => ReaderCan(s, c)
    case Watches => WatchdogCan(s)
    case Snapshots => s.snapshotting || s.parser.None?
    case Switches(_, _) => true
  }

  function Next(s: State, e: Event): State
    requires Enabled(s, e)
  {
    match e
    case Reads(c) => ReaderStep(s, c)
    case Watches => WatchdogStep(s)
    case Snapshots =>
      if s.snapshotting then s.(snapshotting := false, parser := None)
      else s.(snapshotting := true, parser := Some(Server))
    case Switches(ctid, unit) => s.(ctid := ctid, unit := unit)
  }

  function Run(events: seq<Event>): Option<State> {
    if events == [] then Some(START)
    else
      var before, e := Run(events[..|events| - 1]), events[|events| - 1];
      if before.None? || !Enabled(before.value, e) then None else Some(Next(before.value, e))
  }

  // ------------------------------------------------------------- the objects --

  /** A tail that is a command of this agent's own. */
  class ProcessStream {
    const target: Target
    var stopped: bool
    var closed: bool
    var signals: nat

    constructor (target: Target)
      ensures this.target == target && !stopped && !closed && signals == 0
    {
      this.target, stopped, closed, signals := target, false, false, 0;
    }

    /** Ends every writer; a second stop signals nobody. `stubborn` ones need a second signal. */
    method Stop(stubborn: bool)
      modifies this
      ensures stopped && closed == old(closed)
      ensures signals == old(signals) + if old(stopped) then 0 else if stubborn then 2 else 1
    {
      if stopped { return; }
      stopped := true;
      signals := signals + 1;
      if stubborn {
        signals := signals + 1;
      }
    }

    method Close(stubborn: bool)
      modifies this
      ensures stopped && closed
      ensures signals == old(signals) + if old(stopped) then 0 else if stubborn then 2 else 1
    {
      Stop(stubborn);
      closed := true;
    }
  }

  /** _spawn, as a whole. */
  function Spawned(s: State, t: Target, c: Choice): State {
    var closed := Close(s);
    var reset := if closed.target == Some(t) then closed else closed.(sources := {});
    if c == Fails then reset.(stream := None)
    else
      reset.(streams := reset.streams + [Stream(t, false, false)], stream := Some(|reset.streams|), target := Some(t))
  }

  /** The steps of the reader inside _spawn come to that, whoever holds the parser in between. */
  lemma SpawnIsItsSteps(s: State, t: Target, c: Choice)
    requires s.reader == Closing(t) && s.parser.None? && s.pipe.None? && (c == Go || c == Fails)
    ensures ReaderCan(s, Go)
    ensures var s1 := ReaderStep(s, Go);
            ReaderCan(s1, Go) &&
            var s2 := ReaderStep(s1, Go);
            var s3 := if s2.reader.InReset? then ReaderStep(s2, Go) else s2;
            ReaderCan(s3, c) && ReaderStep(s3, c) == Spawned(s, t, c).(reader := LeaveSpawn)
  {
  }

  class JournalFollower {
    var stream: ProcessStream?
    var target: Option<Target>
    var attached: bool
    var sources: set<Target>
    ghost var all: seq<ProcessStream>
    ghost var at: Option<nat>

    /** `all` are the tails ever started, `at` the place of the current one among them. */
    ghost predicate Valid()
      reads this
    {
      && (forall i, j :: 0 <= i < j < |all| ==> all[i] != all[j])
      && (at.None? <==> stream == null)
      && (at.Some? ==> at.value < |all| && all[at.value] == stream)
    }

    /** The part of the protocol's state that these objects hold. */
    ghost function View(): State
      reads this, all
    {
      START.(streams := seq(|all|, i requires 0 <= i < |all| reads this, all => Stream(all[i].target, all[i].stopped, all[i].closed)),
             stream := at, target := target, attached := attached, sources := sources)
    }

    constructor ()
      ensures Valid() && View() == START
    {
      stream, target, attached, sources, all, at := null, None, false, {}, [], None;
    }

    /** The watchdog ends the tail and leaves the pipe to its reader; the reader closes it. */
    method Kill(closePipe: bool, stubborn: bool)
      requires Valid()
      modifies this`stream, this`attached, this`at, all
      ensures Valid() && View() == if closePipe then Close(old(View())) else Stop(old(View()))
    {
      if !closePipe {
        if stream != null { stream.Stop(stubborn); }
        return;
      }
      if stream != null { stream.Close(stubborn); }
      stream, attached, at := null, false, None;
    }

    /** Follows a unit with a new tail, should it start. */
    method Spawn(t: Target, starts: bool, stubborn: bool)
      requires Valid()
      modifies this, all
      ensures Valid() && View() == Spawned(old(View()), t, if starts then Go else Fails)
      ensures at.Some? ==> fresh(all[at.value])
    {
      hide Stop, LocksAgree;
      Kill(true, stubborn);
      if target != Some(t) {
        sources := {};
      }
      if starts {
        var tail := new ProcessStream(t);
        stream, target, all, at := tail, Some(t), all + [tail], Some(|all|);
      } else {
        stream, at := null, None;
      }
    }
  }

  // --------------------------------------------------------------- invariant --

  predicate ReaderHoldsProc(pc: ReaderPc) {
    pc.Closing? || pc.Resetting? || pc.InReset? || pc.Following? || pc.LeaveSpawn? || pc.Killing?
  }

  predicate ProcAgrees(s: State) {
    && (s.proc == Some(Reader) <==> ReaderHoldsProc(s.reader))
    && (s.proc == Some(Watchdog) <==> s.watchdog.Checking? || s.watchdog.Stopping? || s.watchdog.LeaveCheck?)
    && s.proc != Some(Server)
  }

  predicate ParserAgrees(s: State) {
    && (s.parser == Some(Reader) <==> s.reader.InReset? || s.reader.Ingesting?)
    && (s.parser == Some(Server) <==> s.snapshotting)
    && s.parser != Some(Watchdog)
  }

  predicate PipeAgrees(s: State) {
    s.pipe == if s.reader.Reading? then Some(Reader) else None
  }

  predicate LocksAgree(s: State) { ProcAgrees(s) && ParserAgrees(s) && PipeAgrees(s) }

  predicate StreamsAgree(s: State) {
    && (s.stream.Some? ==>
          && s.stream.value < |s.streams|
          && s.target == Some(s.streams[s.stream.value].target)
          && !s.streams[s.stream.value].closed)
    && (forall i :: 0 <= i < |s.streams| && !s.streams[i].stopped ==> s.stream == Some(i))
    && (match s.reader
        case Attach => s.stream.Some?
        case Reading(i) => s.stream == Some(i)
        case WantIngest(i) => s.stream == Some(i)
        case Ingesting(i) => s.stream == Some(i)
        case CheckUnit(i) => s.stream == Some(i)
        case Resetting(_) => s.stream.None?
        case InReset(_) => s.stream.None?
        case Following(_) => s.stream.None?
        case _ => true)
  }

  predicate SourcesAgree(s: State) {
    && (forall t :: t in s.sources ==> s.target == Some(t))
    && (s.reader.Following? && s.target != Some(s.reader.t) ==> s.sources == {})
  }

  predicate Inv(s: State) { LocksAgree(s) && StreamsAgree(s) && SourcesAgree(s) }

  lemma ReaderKeepsProc(s: State, c: Choice)
    requires ProcAgrees(s) && ReaderCan(s, c)
    ensures ProcAgrees(ReaderStep(s, c))
  {
    hide Close;
  }

  lemma ReaderKeepsParser(s: State, c: Choice)
    requires ParserAgrees(s) && ReaderCan(s, c)
    ensures ParserAgrees(ReaderStep(s, c))
  {
    hide Close;
  }

  lemma ReaderKeepsPipe(s: State, c: Choice)
    requires PipeAgrees(s) && ReaderCan(s, c)
    ensures PipeAgrees(ReaderStep(s, c))
  {
    hide Close;
  }

  lemma WatchdogKeepsLocks(s: State)
    requires LocksAgree(s) && WatchdogCan(s)
    ensures LocksAgree(WatchdogStep(s))
  {
    hide Stop;
  }

  lemma LocksKeep(s: State, e: Event)
    requires LocksAgree(s) && Enabled(s, e)
    ensures LocksAgree(Next(s, e))
  {
    hide ReaderStep, WatchdogStep, ReaderCan, WatchdogCan;
    match e
    case Reads(c) => ReaderKeepsProc(s, c); ReaderKeepsParser(s, c); ReaderKeepsPipe(s, c);
    case Watches => WatchdogKeepsLocks(s);
    case _ =>
  }

  lemma ReaderKeepsStreams(s: State, c: Choice)
    requires StreamsAgree(s) && ReaderCan(s, c)
    ensures StreamsAgree(ReaderStep(s, c))
  {
  }

  lemma WatchdogKeepsStreams(s: State)
    requires StreamsAgree(s) && WatchdogCan(s)
    ensures StreamsAgree(WatchdogStep(s))
  {
  }

  lemma StreamsKeep(s: State, e: Event)
    requires StreamsAgree(s) && Enabled(s, e)
    ensures StreamsAgree(Next(s, e))
  {
    hide ReaderStep, WatchdogStep, ReaderCan, WatchdogCan;
    match e
    case Reads(c) => ReaderKeepsStreams(s, c);
    case Watches => WatchdogKeepsStreams(s);
    case _ =>
  }

  lemma SourcesKeep(s: State, e: Event)
    requires StreamsAgree(s) && SourcesAgree(s) && Enabled(s, e)
    ensures SourcesAgree(Next(s, e))
  {
    hide WatchdogStep, ReaderStep;
    match e
    case Reads(c) => ReaderKeepsSources(s, c);
    case Watches => WatchdogKeepsSources(s);
    case _ =>
  }

  lemma ReaderKeepsSources(s: State, c: Choice)
    requires StreamsAgree(s) && SourcesAgree(s) && ReaderCan(s, c)
    ensures SourcesAgree(ReaderStep(s, c))
  {
  }

  lemma WatchdogKeepsSources(s: State)
    requires SourcesAgree(s) && WatchdogCan(s)
    ensures SourcesAgree(WatchdogStep(s))
  {
  }

  lemma StepKeeps(s: State, e: Event)
    requires Inv(s) && Enabled(s, e)
    ensures Inv(Next(s, e))
  {
    hide LocksAgree, StreamsAgree, SourcesAgree, Next;
    LocksKeep(s, e);
    StreamsKeep(s, e);
    SourcesKeep(s, e);
  }

  lemma {:induction false} InvHolds(events: seq<Event>)
    requires Run(events).Some?
    ensures Inv(Run(events).value)
    decreases |events|
  {
    if events == [] {
    } else {
      InvHolds(events[..|events| - 1]);
      StepKeeps(Run(events[..|events| - 1]).value, events[|events| - 1]);
    }
  }

  // ------------------------------------------------------------------ safety --

  /** In every interleaving at most one tail has not been ended, and it is the one followed. */
  lemma OneLiveTail(events: seq<Event>, i: nat, j: nat)
    requires Run(events).Some?
    requires var s := Run(events).value;
             i < |s.streams| && j < |s.streams| && !s.streams[i].stopped && !s.streams[j].stopped
    ensures i == j && Run(events).value.stream == Some(i)
  {
    InvHolds(events);
  }

  predicate ClosedAt(s: State, i: nat) { i < |s.streams| && s.streams[i].closed }

  lemma ClosingStep(s: State, e: Event, i: nat)
    requires ProcAgrees(s) && Enabled(s, e) && i < |s.streams| && !ClosedAt(s, i) && ClosedAt(Next(s, e), i)
    ensures e.Reads? && (s.reader.Closing? || s.reader.Killing?) && s.proc == Some(Reader)
  {
    hide ReaderCan;
    match e
    case Reads(c) =>
      hide WatchdogStep;
    case _ =>
      hide ReaderStep;
  }

  /** A pipe is closed by the reader alone, and never while it is blocked reading it. */
  lemma OnlyTheReaderCloses(events: seq<Event>, e: Event, i: nat)
    requires Run(events).Some? && Enabled(Run(events).value, e)
    requires i < |Run(events).value.streams| && !ClosedAt(Run(events).value, i) && ClosedAt(Next(Run(events).value, e), i)
    ensures var s := Run(events).value;
            e.Reads? && (s.reader.Closing? || s.reader.Killing?) && s.proc == Some(Reader)
  {
    hide Next, Enabled, Run;
    InvHolds(events);
    ClosingStep(Run(events).value, e, i);
  }

  lemma NeverReadsAClosedPipe(events: seq<Event>)
    requires Run(events).Some? && Run(events).value.reader.Reading?
    ensures var s := Run(events).value;
            s.reader.i < |s.streams| && !s.streams[s.reader.i].closed && s.proc != Some(Reader)
  {
    InvHolds(events);
  }

  /** The load record comes from lines of the target followed now, and from no other. */
  lemma LoadIsOfTheTarget(events: seq<Event>, t: Target)
    requires Run(events).Some? && t in Run(events).value.sources
    ensures Run(events).value.target == Some(t)
  {
    InvHolds(events);
  }

  /** A tail that is followed no longer has been ended, and its pipe closed. */
  predicate OldTailsAreClosed(s: State) {
    forall i :: 0 <= i < |s.streams| && s.stream != Some(i) ==> s.streams[i].stopped && s.streams[i].closed
  }

  predicate HasTail(pc: ReaderPc) {
    pc.Reading? || pc.WantIngest? || pc.Ingesting? || pc.CheckUnit? || pc.WantKill? || pc.Killing?
  }

  predicate ResetsForAnother(s: State) { s.reader.InReset? ==> s.target != Some(s.reader.t) }

  predicate AttachedAgrees(s: State) {
    && (s.attached <==> HasTail(s.reader))
    && (s.attached || s.reader.Attach? ==> s.stream.Some?)
  }

  lemma TailsKeep(s: State, e: Event)
    requires StreamsAgree(s) && ProcAgrees(s) && Enabled(s, e)
    requires OldTailsAreClosed(s) && AttachedAgrees(s) && ResetsForAnother(s)
    ensures var t := Next(s, e); OldTailsAreClosed(t) && AttachedAgrees(t) && ResetsForAnother(t)
  {
  }

  /** No tail is left behind, and `alive` says exactly whether the reader is on one. */
  lemma {:induction false} NothingIsLeft(events: seq<Event>)
    requires Run(events).Some?
    ensures var s := Run(events).value; OldTailsAreClosed(s) && AttachedAgrees(s) && ResetsForAnother(s)
    decreases |events|
  {
    if events == [] {
    } else {
      var front := events[..|events| - 1];
      NothingIsLeft(front);
      InvHolds(front);
      TailsKeep(Run(front).value, events[|events| - 1]);
    }
  }

  /** The i-th event takes a line of a tail of t into the load record. */
  predicate TakesLine(events: seq<Event>, i: nat, t: Target)
    requires i < |events|
  {
    && events[i].Reads? && Run(events[..i]).Some?
    && var s := Run(events[..i]).value;
       s.reader.Ingesting? && s.reader.i < |s.streams| && s.streams[s.reader.i].target == t
  }

  /** The i-th event makes room for the record of a target other than t. */
  predicate MovesOn(events: seq<Event>, i: nat, t: Target)
    requires i < |events|
  {
    && events[i].Reads? && Run(events[..i]).Some?
    && Run(events[..i]).value.reader.InReset? && Run(events[..i]).value.reader.t != t
  }

  predicate HeldFrom(events: seq<Event>, t: Target, i: nat)
    requires i < |events|
  {
    TakesLine(events, i, t) && forall j :: i < j < |events| ==> !MovesOn(events, j, t)
  }

  /** The load record holds lines of a target. */
  predicate HoldsLines(events: seq<Event>, t: Target) {
    exists i :: 0 <= i < |events| && HeldFrom(events, t, i)
  }

  lemma HoldsStep(events: seq<Event>, e: Event, t: Target)
    ensures HoldsLines(events + [e], t) <==>
      TakesLine(events + [e], |events|, t) || (HoldsLines(events, t) && !MovesOn(events + [e], |events|, t))
  {
    hide Run;
    var more := events + [e];
    forall i | 0 <= i < |events|
      ensures TakesLine(more, i, t) == TakesLine(events, i, t) && MovesOn(more, i, t) == MovesOn(events, i, t)
    {
      assert more[..i] == events[..i];
    }
    if i :| 0 <= i < |events| && HeldFrom(events, t, i) {
      if !MovesOn(more, |events|, t) {
        assert HeldFrom(more, t, i);
      }
    }
    if TakesLine(more, |events|, t) {
      assert HeldFrom(more, t, |events|);
    }
    if i :| 0 <= i < |more| && HeldFrom(more, t, i) {
      if i < |events| {
        assert HeldFrom(events, t, i);
      }
    }
  }

  lemma SourceStep(s: State, e: Event, t: Target)
    requires Inv(s) && ResetsForAnother(s) && Enabled(s, e)
    ensures t in Next(s, e).sources <==>
      || (e.Reads? && s.reader.Ingesting? && s.streams[s.reader.i].target == t)
      || (t in s.sources && !(e.Reads? && s.reader.InReset? && s.reader.t != t))
  {
    hide ProcAgrees, ParserAgrees, PipeAgrees;
  }

  /** The main result on the load record: it holds lines of a target exactly when one was taken from
      its tail and no other target has been turned to since. A tail started again for the same unit
      keeps it. */
  lemma {:induction false} RecordIffHeld(events: seq<Event>, t: Target)
    requires Run(events).Some?
    ensures t in Run(events).value.sources <==> HoldsLines(events, t)
    decreases |events|
  {
    if events == [] {
    } else {
      hide Inv, Next, Enabled, HoldsLines, ResetsForAnother;
      var front, e := events[..|events| - 1], events[|events| - 1];
      assert events == front + [e];
      RecordIffHeld(front, t);
      InvHolds(front);
      NothingIsLeft(front);
      HoldsStep(front, e, t);
      SourceStep(Run(front).value, e, t);
    }
  }

  /** The thread that holds the lock a thread is waiting for. */
  function WaitsFor(s: State, t: Thread): Option<Thread> {
    match t
    case Reader =>
      if s.reader.WantSpawn? || s.reader.WantKill? then s.proc
      else if s.reader.WantIngest? || (s.reader.Resetting? && s.target != Some(s.reader.t)) then s.parser
      else if (s.reader.Closing? || s.reader.Killing?) && s.stream.Some? then s.pipe
      else None
    case Watchdog => if s.watchdog.WantCheck? then s.proc else None
    case Server => if s.snapshotting then None else s.parser
  }

  /** No cycle of lock waits: a thread waits for another, and that one at most for a third that
      waits for nobody. */
  lemma NoWaitCycle(events: seq<Event>, t: Thread)
    requires Run(events).Some? && WaitsFor(Run(events).value, t).Some?
    ensures var s := Run(events).value;
            var u := WaitsFor(s, t).value;
            u != t && (WaitsFor(s, u).Some? ==> WaitsFor(s, u).value != t && WaitsFor(s, WaitsFor(s, u).value).None?)
  {
    InvHolds(events);
  }

  /** Nobody waits, directly or through another, for a reader that is blocked in a read: the deadlock
      of a watchdog that closes the pipe itself. */
  lemma NobodyWaitsForABlockedRead(events: seq<Event>, t: Thread)
    requires Run(events).Some? && Run(events).value.reader.Reading?
    ensures var s := Run(events).value;
            s.pipe == Some(Reader) && WaitsFor(s, t) != Some(Reader)
            && (WaitsFor(s, t).Some? ==> WaitsFor(s, WaitsFor(s, t).value) != Some(Reader))
  {
    InvHolds(events);
  }

  // ---------------------------------------------------------------- progress --

  /** Another unit serves than the one followed. */
  predicate Mismatch(s: State) {
    s.ctid.Some? && s.unit.Some? && (s.target.Some? ==> s.target.value.unit != s.unit.value)
  }

  /** How far the watchdog is from ending the tail the reader is blocked on. */
  function WatchdogRank(s: State): nat
    requires s.unit.Some?
  {
    match s.watchdog
    case Stopping => 1
    case Checking(now) => if now == s.unit then 2 else 6
    case WantCheck(now) => if now == s.unit then 3 else 7
    case Asleep => 4
    case LeaveCheck => 5
  }

  /** How far the follower is from following the unit that serves. A tail started for a unit read
      before the switch costs one more round. */
  function Rank(s: State): nat
    requires s.unit.Some?
  {
    var late := 22;
    match s.reader
    case Top => 20
    case WantSpawn(t) => if t.unit == s.unit.value then 19 else 19 + late
    case Closing(t) => if t.unit == s.unit.value then 18 else 18 + late
    case Resetting(t) => if t.unit == s.unit.value then 17 else 17 + late
    case InReset(t) => if t.unit == s.unit.value then 16 else 16 + late
    case Following(t) => if t.unit == s.unit.value then 15 else 15 + late
    case LeaveSpawn => if s.stream.None? then 21 else 36
    case Attach => 35
    case Reading(i) => if i < |s.streams| && !s.streams[i].stopped then 26 + WatchdogRank(s) else 26
    case WantIngest(_) => 25
    case Ingesting(_) => 24
    case CheckUnit(_) => 23
    case WantKill => 22
    case Killing => 21
  }

  /** Every step of the reader, bar a tail that would not start, brings it closer or all the way. */
  lemma ReaderGetsCloser(s: State, c: Choice)
    requires StreamsAgree(s) && Mismatch(s) && ReaderCan(s, c) && c != Fails
    ensures var t := ReaderStep(s, c);
            !Mismatch(t) || Rank(t) < Rank(s)
  {
  }

  /** The other threads never set it back, and while the reader is blocked on a tail that is still
      alive, every step of the watchdog brings closer the end of that tail. */
  lemma OthersDoNotSetBack(s: State, e: Event)
    requires StreamsAgree(s) && ProcAgrees(s) && Mismatch(s) && Enabled(s, e) && (e.Watches? || e.Snapshots?)
    ensures var t := Next(s, e);
            && Mismatch(t) && Rank(t) <= Rank(s)
            && (e.Watches? && s.reader.Reading? && !s.streams[s.reader.i].stopped ==> Rank(t) < Rank(s))
  {
    hide ReaderStep, ReaderCan, SourcesAgree;
    if e.Watches? {
      WatchdogMovesOn(s);
    }
  }

  lemma WatchdogMovesOn(s: State)
    requires StreamsAgree(s) && ProcAgrees(s) && Mismatch(s) && WatchdogCan(s)
    ensures var t := WatchdogStep(s);
            && Mismatch(t) && Rank(t) <= Rank(s)
            && (s.reader.Reading? && !s.streams[s.reader.i].stopped ==> Rank(t) < Rank(s))
  {
  }

  /** Somebody can always move: the reader itself (an ended tail yields its end), or the watchdog
      while the reader is blocked on a live tail, or the holder of the lock the reader wants. */
  lemma SomeoneCanMove(s: State)
    requires Inv(s) && Mismatch(s)
    ensures match s.reader
            case Reading(i) => if s.streams[i].stopped then ReaderCan(s, End) else WatchdogCan(s)
            case _ => ReaderCan(s, Go) || (WaitsFor(s, Reader).Some? &&
                        (WaitsFor(s, Reader).value == Watchdog ==> WatchdogCan(s)) &&
                        (WaitsFor(s, Reader).value == Server ==> Enabled(s, Snapshots)))
  {
    if s.reader.Reading? && s.proc.Some? {
      assert s.proc.value == Watchdog;
    }
  }

  predicate BringsCloser(s: State, e: Event) {
    || (e.Reads? && e.c != Fails)
    || (e.Watches? && s.reader.Reading? && s.reader.i < |s.streams| && !s.streams[s.reader.i].stopped)
  }

  /** A run during which the active unit stays, tails start when asked to, and the follower is on
      the wrong unit all the while; `closer` of its steps bring it closer. */
  predicate Astray(s: State, events: seq<Event>, closer: nat)
    decreases |events|
  {
    Mismatch(s) &&
    if events == [] then closer == 0
    else
      var e := events[0];
      && Enabled(s, e) && !e.Switches? && e != Reads(Fails)
      && if BringsCloser(s, e) then closer > 0 && Astray(Next(s, e), events[1..], closer - 1)
         else Astray(Next(s, e), events[1..], closer)
  }

  /** The main result on progress: no run stays on the wrong unit for more than Rank(s), at most 44,
      of the steps that bring the follower closer; and one such step, or the release of the lock
      it waits for, can always be taken (SomeoneCanMove). */
  lemma {:induction false} AstrayIsBounded(s: State, events: seq<Event>, closer: nat)
    requires Inv(s) && Astray(s, events, closer)
    ensures closer <= Rank(s) <= 44
    decreases |events|
  {
    hide ReaderStep, WatchdogStep, ProcAgrees, ParserAgrees, PipeAgrees, SourcesAgree, Rank;
    if events == [] {
      RankIsSmall(s);
    } else {
      var e := events[0];
      StepKeeps(s, e);
      if e.Reads? {
        ReaderGetsCloser(s, e.c);
      } else {
        OthersDoNotSetBack(s, e);
      }
      AstrayIsBounded(Next(s, e), events[1..], if BringsCloser(s, e) then closer - 1 else closer);
      RankIsSmall(s);
    }
  }

  lemma RankIsSmall(s: State)
    requires s.unit.Some?
    ensures Rank(s) <= 44
  {
  }

  // ----------------------------------------------- what only a name shows --

  /** The tail the reader is on, if it is in its loop over one. */
  function OnTail(s: State): Option<nat> {
    match s.reader
    case Reading(i) => Some(i)
    case WantIngest(i) => Some(i)
    case Ingesting(i) => Some(i)
    case CheckUnit(i) => Some(i)
    case _ => None
  }

  predicate OnLiveTail(s: State) {
    OnTail(s).Some? && OnTail(s).value < |s.streams| && !s.streams[OnTail(s).value].stopped
  }

  /** The watchdog is about to end the tail for the name it read. */
  predicate Armed(s: State) {
    match s.watchdog
    case WantCheck(now) => now.Some? && s.target.Some? && now.value != s.target.value.unit
    case Checking(now) => now.Some? && s.target.Some? && now.value != s.target.value.unit
    case Stopping => true
    case _ => false
  }

  /** The reader follows a live tail of the active unit's name, but in another container, and the
      watchdog has not read another name before. */
  predicate Stuck(s: State) {
    && OnLiveTail(s) && !Armed(s)
    && s.target.Some? && s.unit == Some(s.target.value.unit) && s.ctid.Some? && s.ctid.value != s.target.value.ctid
  }

  /** No step of a run changes the active unit, and no tail ends unless this agent ends it. */
  predicate Undisturbed(s: State, e: Event) { !e.Switches? && !(e == Reads(End) && OnLiveTail(s)) }

  function RunFrom(s: State, events: seq<Event>): Option<State>
    decreases |events|
  {
    if events == [] then Some(s)
    else if !Enabled(s, events[0]) || !Undisturbed(s, events[0]) then None
    else RunFrom(Next(s, events[0]), events[1..])
  }

  lemma StuckStays(s: State, e: Event)
    requires StreamsAgree(s) && Stuck(s) && Enabled(s, e) && Undisturbed(s, e)
    ensures Stuck(Next(s, e)) && Next(s, e).target == s.target
  {
    hide ProcAgrees, SourcesAgree, Close;
    match e
    case Reads(c) => hide WatchdogStep, WatchdogCan;
    case _ => hide ReaderStep, ReaderCan;
  }

  /** The unit's name is all that watchdog and reader compare: should the same unit move to another
      container, the old tail is followed for as long as it does not end by itself. */
  lemma {:induction false} StuckForever(s: State, events: seq<Event>)
    requires Inv(s) && Stuck(s) && RunFrom(s, events).Some?
    ensures Stuck(RunFrom(s, events).value) && RunFrom(s, events).value.target == s.target
    decreases |events|
  {
    if events == [] {
    } else {
      hide Inv, Stuck, Next, Enabled, Undisturbed;
      StuckStep(s, events[0]);
      StuckForever(Next(s, events[0]), events[1..]);
    }
  }

  lemma StuckStep(s: State, e: Event)
    requires Inv(s) && Stuck(s) && Enabled(s, e) && Undisturbed(s, e)
    ensures Inv(Next(s, e)) && Stuck(Next(s, e)) && Next(s, e).target == s.target
  {
    hide Next, Stuck, Enabled, Undisturbed, LocksAgree, StreamsAgree, SourcesAgree;
    StepKeeps(s, e);
    StuckStays(s, e);
  }

  function Gos(n: nat): seq<Event> { if n == 0 then [] else [Reads(Go)] + Gos(n - 1) }

  lemma GoOn(s: State, n: nat)
    requires n > 0 && ReaderCan(s, Go)
    ensures RunFrom(s, Gos(n)) == RunFrom(ReaderStep(s, Go), Gos(n - 1))
  {
    assert Gos(n)[0] == Reads(Go) && Gos(n)[1..] == Gos(n - 1);
  }

  lemma NoneLeft(s: State)
    ensures RunFrom(s, Gos(0)) == Some(s)
  {
  }

  lemma {:induction false} RunFromAppend(s: State, a: seq<Event>, b: seq<Event>)
    requires RunFrom(s, a).Some?
    ensures RunFrom(s, a + b) == RunFrom(RunFrom(s, a).value, b)
    decreases |a|
  {
    if a == [] {
      assert a + b == b;
    } else {
      assert (a + b)[0] == a[0] && (a + b)[1..] == a[1..] + b;
      RunFromAppend(Next(s, a[0]), a[1..], b);
    }
  }

  lemma {:induction false} RunThen(events: seq<Event>, more: seq<Event>)
    requires Run(events).Some? && RunFrom(Run(events).value, more).Some?
    ensures Run(events + more) == RunFrom(Run(events).value, more)
    decreases |more|
  {
    if more == [] {
      assert events + more == events;
    } else {
      assert (events + [more[0]])[..|events|] == events;
      assert events + more == events + [more[0]] + more[1..];
      RunThen(events + [more[0]], more[1..]);
    }
  }

  /** With no tail and the locks free, the reader comes to read a new tail of the active unit. */
  lemma FollowsAnew(s: State, t: Target)
    requires s.reader == Top && s.stream.None? && s.proc.None? && s.parser.None? && s.pipe.None?
    requires s.ctid == Some(t.ctid) && s.unit == Some(t.unit)
    ensures var r := RunFrom(s, Gos(if s.target == Some(t) then 7 else 8));
            r.Some? && r.value.target == Some(t) && r.value.reader == Reading(|s.streams|) && OnLiveTail(r.value)
            && r.value.ctid == s.ctid && r.value.unit == s.unit && r.value.watchdog == s.watchdog
  {
    hide RunFrom, Gos;
    var n := if s.target == Some(t) then 7 else 8;
    var s1 := ReaderStep(s, Go);
    var s2 := ReaderStep(s1, Go);
    var s3 := ReaderStep(s2, Go);
    var s4 := ReaderStep(s3, Go);
    GoOn(s, n);
    GoOn(s1, n - 1);
    GoOn(s2, n - 2);
    GoOn(s3, n - 3);
    var s5 := if s4.reader.InReset? then ReaderStep(s4, Go) else s4;
    if s4.reader.InReset? {
      GoOn(s4, n - 4);
    }
    FollowsOn(s5, t);
  }

  lemma FollowsOn(s: State, t: Target)
    requires s.reader == Following(t) && s.pipe.None?
    ensures var r := RunFrom(s, Gos(3));
            r.Some? && r.value.target == Some(t) && r.value.reader == Reading(|s.streams|) && OnLiveTail(r.value)
            && r.value.ctid == s.ctid && r.value.unit == s.unit && r.value.watchdog == s.watchdog
  {
    hide *;
    var s6 := s.(streams := s.streams + [Stream(t, false, false)], stream := Some(|s.streams|), target := Some(t), reader := LeaveSpawn);
    assert ReaderCan(s, Go) && ReaderStep(s, Go) == s6 by { TailStarts(s, t); }
    var s7 := s6.(proc := None, reader := Attach);
    assert ReaderCan(s6, Go) && ReaderStep(s6, Go) == s7 by { SpawnIsLeft(s6); }
    var s8 := s7.(attached := true, pipe := Some(Reader), reader := Reading(|s.streams|));
    assert ReaderCan(s7, Go) && ReaderStep(s7, Go) == s8 by { ReadBegins(s7); }
    GoOn(s, 3);
    GoOn(s6, 2);
    GoOn(s7, 1);
    NoneLeft(s8);
    OnNewTail(s8, |s.streams|);
  }

  lemma OnNewTail(s: State, i: nat)
    requires s.reader == Reading(i) && i < |s.streams| && !s.streams[i].stopped
    ensures OnLiveTail(s)
  {
  }

  lemma TailStarts(s: State, t: Target)
    requires s.reader == Following(t)
    ensures ReaderCan(s, Go) && ReaderStep(s, Go) ==
      s.(streams := s.streams + [Stream(t, false, false)], stream := Some(|s.streams|), target := Some(t), reader := LeaveSpawn)
  {
  }

  lemma SpawnIsLeft(s: State)
    requires s.reader.LeaveSpawn? && s.stream.Some?
    ensures ReaderCan(s, Go) && ReaderStep(s, Go) == s.(proc := None, reader := Attach)
  {
  }

  lemma ReadBegins(s: State)
    requires s.reader.Attach? && s.stream.Some? && s.pipe.None?
    ensures ReaderCan(s, Go) && ReaderStep(s, Go) == s.(attached := true, pipe := Some(Reader), reader := Reading(s.stream.value))
  {
  }

  /** From a start: a unit is followed in container 1, and moves to container 2. */
  function Moved(unit: Unit): seq<Event> { [Switches(Some(1), Some(unit))] + Gos(8) + [Switches(Some(2), Some(unit))] }

  lemma {:induction false} StuckIsReachable(unit: Unit)
    ensures Run(Moved(unit)).Some? && Stuck(Run(Moved(unit)).value)
  {
    hide RunFrom, Gos, ReaderStep;
    var first, second := Switches(Some(1), Some(unit)), Switches(Some(2), Some(unit));
    assert [first][..0] == [];
    var s := Next(START, first);
    assert Run([first]) == Some(s);
    FollowsAnew(s, Target(1, unit));
    RunThen([first], Gos(8));
    assert ([first] + Gos(8) + [second])[..|[first] + Gos(8)|] == [first] + Gos(8);
  }

  // ------------------------------------------- exactly when it is followed anew --

  /** How many steps the watchdog needs to have ended the tail and be asleep. */
  function ToStop(s: State): nat {
    if !OnLiveTail(s) then
      match s.watchdog
      case Asleep => 0
      case LeaveCheck => 1
      case Stopping => 2
      case Checking(_) => 3
      case WantCheck(_) => 4
    else
      match s.watchdog
      case Stopping => 6
      case Checking(_) => if Armed(s) then 7 else 11
      case WantCheck(_) => if Armed(s) then 8 else 12
      case Asleep => 9
      case LeaveCheck => 10
  }

  predicate Retargetable(s: State) { s.unit.Some? && s.target.Some? && s.unit.value != s.target.value.unit }

  /** The watchdog gets there by itself, if it is armed or the names differ. */
  lemma {:induction false} WatchdogEndsTail(s: State) returns (events: seq<Event>)
    requires Inv(s) && s.reader.Reading? && (!OnLiveTail(s) || Armed(s) || Retargetable(s))
    ensures RunFrom(s, events).Some?
    ensures var t := RunFrom(s, events).value;
            && Inv(t) && !OnLiveTail(t) && t.watchdog.Asleep?
            && t == s.(streams := t.streams, watchdog := t.watchdog, proc := t.proc)
    decreases ToStop(s)
  {
    if ToStop(s) == 0 {
      events := [];
    } else {
      WatchdogNears(s);
      StepKeeps(s, Watches);
      var rest := WatchdogEndsTail(WatchdogStep(s));
      events := [Watches] + rest;
      assert events[1..] == rest;
    }
  }

  lemma WatchdogIsFree(s: State)
    requires ProcAgrees(s) && s.reader.Reading?
    ensures WatchdogCan(s) && (s.watchdog.Asleep? ==> s.proc.None?)
  {
    match s.proc
    case None =>
    case Some(t) => assert t == Reader || t == Watchdog || t == Server;
  }

  lemma WatchdogNears(s: State)
    requires Inv(s) && s.reader.Reading? && (!OnLiveTail(s) || Armed(s) || Retargetable(s)) && ToStop(s) > 0
    ensures WatchdogCan(s)
    ensures var t := WatchdogStep(s);
            && ToStop(t) < ToStop(s) && (!OnLiveTail(t) || Armed(t) || Retargetable(t))
            && t == s.(streams := t.streams, watchdog := t.watchdog, proc := t.proc)
  {
    hide ParserAgrees, PipeAgrees, SourcesAgree, ReaderHoldsProc;
    WatchdogIsFree(s);
  }

  lemma FreeLocks(s: State)
    requires Inv(s) && s.reader.Reading? && s.watchdog.Asleep? && !s.snapshotting
    ensures s.proc.None? && s.parser.None? && s.pipe == Some(Reader)
  {
    WatchdogIsFree(s);
    match s.parser {
      case None =>
      case Some(t) => match t { case Reader => case Watchdog => case Server => }
    }
  }

  /** From a read of an ended tail, with the watchdog asleep and no snapshot under way, the reader
      comes to follow the active unit. */
  lemma EndedTailIsLeft(s: State, t: Target)
    requires Inv(s) && s.reader.Reading? && !OnLiveTail(s) && s.watchdog.Asleep? && !s.snapshotting
    requires s.ctid == Some(t.ctid) && s.unit == Some(t.unit)
    ensures var r := RunFrom(s, [Reads(End)] + Gos(2 + if s.target == Some(t) then 7 else 8));
            r.Some? && r.value.target == Some(t)
  {
    FreeLocks(s);
    hide Gos;
    var n := if s.target == Some(t) then 7 else 8;
    var s1 := ReaderStep(s, End);
    assert ([Reads(End)] + Gos(2 + n))[1..] == Gos(2 + n);
    assert RunFrom(s, [Reads(End)] + Gos(2 + n)) == RunFrom(s1, Gos(2 + n));
    TailIsDropped(s1, t, n);
  }

  lemma TailIsDropped(s: State, t: Target, n: nat)
    requires s.reader == WantKill && s.proc.None? && s.parser.None? && s.pipe.None?
    requires s.ctid == Some(t.ctid) && s.unit == Some(t.unit) && n == if s.target == Some(t) then 7 else 8
    ensures RunFrom(s, Gos(2 + n)).Some? && RunFrom(s, Gos(2 + n)).value.target == Some(t)
  {
    hide RunFrom, Gos;
    var s2 := ReaderStep(s, Go);
    GoOn(s, 2 + n);
    GoOn(s2, 1 + n);
    FollowsAnew(ReaderStep(s2, Go), t);
  }

  /** The reader can come to follow another target, in some undisturbed run. */
  ghost predicate CanFollow(s: State, t: Target) {
    exists events :: RunFrom(s, events).Some? && RunFrom(s, events).value.target == Some(t)
  }

  lemma NamesDifferSoItCan(s: State, t: Target)
    requires Inv(s) && s.reader.Reading? && (!OnLiveTail(s) || Armed(s) || Retargetable(s))
    requires s.ctid == Some(t.ctid) && s.unit == Some(t.unit)
    ensures CanFollow(s, t)
  {
    var quiet: seq<Event> := if s.snapshotting then [Snapshots] else [];
    SnapshotEnds(s, quiet);
    var s1 := RunFrom(s, quiet).value;
    var ending := WatchdogEndsTail(s1);
    var s2 := RunFrom(s1, ending).value;
    EndedTailIsLeft(s2, t);
    var leaving := [Reads(End)] + Gos(2 + if s2.target == Some(t) then 7 else 8);
    hide RunFrom;
    RunFromAppend(s1, ending, leaving);
    RunFromAppend(s, quiet, ending + leaving);
    assert RunFrom(s, quiet + (ending + leaving)).Some?;
  }

  lemma SnapshotEnds(s: State, quiet: seq<Event>)
    requires Inv(s) && quiet == if s.snapshotting then [Snapshots] else []
    ensures RunFrom(s, quiet).Some?
    ensures var t := RunFrom(s, quiet).value;
            Inv(t) && !t.snapshotting && t == s.(snapshotting := false, parser := t.parser)
  {
    if s.snapshotting {
      StepKeeps(s, Snapshots);
      assert quiet[1..] == [];
    }
  }

  /** The main result on what is followed, exactly: while the reader reads a tail that does not end by
      itself, in a container or of a unit that is not the active one, it can come to follow the active
      one if and only if it is not stuck; with a watchdog that has not read another name just before,
      if and only if the units' names differ. That it then must is AstrayIsBounded. */
  lemma FollowsAnewIff(s: State, t: Target)
    requires Inv(s) && s.reader.Reading? && OnLiveTail(s) && s.target.Some? && s.target.value != t
    requires s.ctid == Some(t.ctid) && s.unit == Some(t.unit)
    ensures CanFollow(s, t) <==> !Stuck(s)
    ensures !Armed(s) ==> (CanFollow(s, t) <==> s.target.value.unit != t.unit)
  {
    if Stuck(s) {
      if CanFollow(s, t) {
        var events :| RunFrom(s, events).Some? && RunFrom(s, events).value.target == Some(t);
        StuckForever(s, events);
        assert false;
      }
    } else {
      NamesDifferSoItCan(s, t);
    }
  }
}
