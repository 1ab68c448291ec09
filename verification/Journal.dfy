/** llama.cpp's service log turned into state (agent/inferenceinquire_agent/journal/parser.py),
    from lines the patterns have already matched. */
module Journal {

  import opened Basics

  const MAX_REQUESTS := 60

  datatype Pick = FromCache(similarity: real, keep: real) | LeastRecent

  /** One log line, as the first pattern that matches it reads it. */
  datatype Line =
    | AuthFail
    | CacheEvict(mib: real)
    | CacheSkip(limit: real)
    | Cancel
    | Tg(slot: nat, task: int, generated: nat, rate: real, rate3s: real)
    | Prompt(slot: nat, task: int, ms: real, tokens: nat, tps: real)
    | Eval(slot: nat, task: int, ms: real, tokens: nat, tps: real)
    | Total(slot: nat, task: int, ms: real, tokens: nat)
    | Draft(slot: nat, task: int, accept: real, accepted: nat, drafted: nat, meanLen: real)
    | Graphs(slot: nat, task: int, reused: nat)
    | Launch(slot: nat, task: int, child: bool)
    | Release(slot: nat, task: int, tokens: nat, truncated: bool)
    | PickLcp(slot: nat, similarity: real, keep: real)
    | PickLru(slot: nat)
    | Loading(path: string)
    | Loaded
    | Oom(warning: string)
    | Unmatched

  datatype Entry = Entry(ts: real, line: Line)

  // ---------------------------------------------------------------- counters --

  datatype Counters = Counters(authFail: nat, evict: nat, evictMib: real, skip: nat, cancel: nat)

  const ZERO := Counters(0, 0, 0.0, 0, 0)

  /** The counters and the high-water mark that guards them. */
  datatype Meter = Meter(counters: Counters, hwm: real)

  const FRESH_METER := Meter(ZERO, 0.0)

  predicate Counted(line: Line) {
    line.AuthFail? || line.CacheEvict? || line.CacheSkip? || line.Cancel?
  }

  function Add(c: Counters, line: Line): Counters {
    match line
    case AuthFail => c.(authFail := c.authFail + 1)
    case CacheEvict(mib) => c.(evict := c.evict + 1, evictMib := c.evictMib + mib)
    case CacheSkip(_) => c.(skip := c.skip + 1)
    case Cancel => c.(cancel := c.cancel + 1)
    case _ => c
  }

  function Metered(m: Meter, e: Entry): Meter {
    if Counted(e.line) && e.ts > m.hwm then Meter(Add(m.counters, e.line), e.ts) else m
  }

  function MeterRun(m: Meter, log: seq<Entry>): Meter {
    if log == [] then m else Metered(MeterRun(m, log[..|log| - 1]), log[|log| - 1])
  }

  /** What the log says, counted plainly. */
  function Tally(log: seq<Entry>): Counters {
    if log == [] then ZERO else Add(Tally(log[..|log| - 1]), log[|log| - 1].line)
  }

  /** How many lines are of a kind. */
  function Lines(log: seq<Entry>, kind: Line -> bool): nat {
    if log == [] then 0 else Lines(log[..|log| - 1], kind) + if kind(log[|log| - 1].line) then 1 else 0
  }

  function IsAuthFail(): Line -> bool { (l: Line) => l.AuthFail? }

  function IsEviction(): Line -> bool { (l: Line) => l.CacheEvict? }

  function IsSkip(): Line -> bool { (l: Line) => l.CacheSkip? }

  function IsCancel(): Line -> bool { (l: Line) => l.Cancel? }

  /** What the evictions of a log come to. */
  function MibEvicted(log: seq<Entry>): real {
    if log == [] then 0.0
    else
      var e := log[|log| - 1];
      MibEvicted(log[..|log| - 1]) + if e.line.CacheEvict? then e.line.mib else 0.0
  }

  /** Each counter is the number of lines of its kind, and the evicted size their sum. */
  lemma {:induction false} TallyCounts(log: seq<Entry>)
    ensures var c := Tally(log);
            && c.authFail == Lines(log, IsAuthFail()) && c.evict == Lines(log, IsEviction())
            && c.skip == Lines(log, IsSkip()) && c.cancel == Lines(log, IsCancel())
            && c.evictMib == MibEvicted(log)
    decreases |log|
  {
    if log == [] {
    } else {
      TallyCounts(log[..|log| - 1]);
    }
  }

  /** The timestamp of the last counted line, 0 before there is one. */
  function LastCounted(log: seq<Entry>): real {
    if log == [] then 0.0
    else if Counted(log[|log| - 1].line) then log[|log| - 1].ts
    else LastCounted(log[..|log| - 1])
  }

  /** Counted lines carry positive, strictly increasing timestamps. */
  predicate Ticking(log: seq<Entry>) {
    forall i :: 0 <= i < |log| && Counted(log[i].line) ==> log[i].ts > LastCounted(log[..i])
  }

  function Size(c: Counters): nat { c.authFail + c.evict + c.skip + c.cancel }

  lemma {:induction false} MeterIsTally(log: seq<Entry>)
    requires Ticking(log)
    ensures MeterRun(FRESH_METER, log) == Meter(Tally(log), LastCounted(log))
    decreases |log|
  {
    if log == [] {
    } else {
      var front := log[..|log| - 1];
      assert forall i :: 0 <= i < |front| ==> front[i] == log[i] && front[..i] == log[..i];
      MeterIsTally(front);
    }
  }

  lemma {:induction false} MeterAtMostTally(log: seq<Entry>)
    ensures Size(MeterRun(FRESH_METER, log).counters) <= Size(Tally(log))
    ensures Size(MeterRun(FRESH_METER, log).counters) == Size(Tally(log)) ==> Ticking(log)
    decreases |log|
  {
    if log == [] {
    } else {
      var front := log[..|log| - 1];
      MeterAtMostTally(front);
      if Size(MeterRun(FRESH_METER, log).counters) == Size(Tally(log)) {
        assert forall i :: 0 <= i < |front| ==> front[i] == log[i] && front[..i] == log[..i];
        MeterIsTally(front);
      }
    }
  }

  /** Reading a log once counts every signal in it if and only if the counted lines' timestamps are
      positive and strictly increasing: two signals of the same instant count as one. */
  lemma CountsAllIff(log: seq<Entry>)
    ensures MeterRun(FRESH_METER, log).counters == Tally(log) <==> Ticking(log)
  {
    MeterAtMostTally(log);
    if Ticking(log) {
      MeterIsTally(log);
    }
  }

  // ----------------------------------------------------- at-least-once delivery --

  /** One life of a tail: it reads the log from one position to another. */
  datatype Tail = Tail(from: nat, to: nat)

  /** How far into the log a series of tails has read. */
  function Reached(tails: seq<Tail>): nat {
    if tails == [] then 0
    else
      var r, t := Reached(tails[..|tails| - 1]), tails[|tails| - 1];
      if t.to > r then t.to else r
  }

  /** Each tail starts at or before the point reached: a respawn replays, but skips nothing. */
  predicate Gapless(log: seq<Entry>, tails: seq<Tail>) {
    forall i :: 0 <= i < |tails| ==> tails[i].from <= tails[i].to <= |log| && tails[i].from <= Reached(tails[..i])
  }

  function Delivered(log: seq<Entry>, tails: seq<Tail>): seq<Entry>
    requires Gapless(log, tails)
  {
    if tails == [] then []
    else
      var front := tails[..|tails| - 1];
      assert forall i :: 0 <= i < |front| ==> front[i] == tails[i] && front[..i] == tails[..i];
      Delivered(log, front) + log[tails[|tails| - 1].from..tails[|tails| - 1].to]
  }

  lemma {:induction false} MeterRunAppend(m: Meter, a: seq<Entry>, b: seq<Entry>)
    ensures MeterRun(m, a + b) == MeterRun(MeterRun(m, a), b)
    decreases |b|
  {
    if b == [] {
      assert a + b == a;
    } else {
      assert (a + b)[..|a + b| - 1] == a + b[..|b| - 1];
      MeterRunAppend(m, a, b[..|b| - 1]);
    }
  }

  lemma {:induction false} OldLinesChangeNothing(m: Meter, log: seq<Entry>)
    requires forall e :: e in log && Counted(e.line) ==> e.ts <= m.hwm
    ensures MeterRun(m, log) == m
    decreases |log|
  {
    if log == [] {
    } else {
      OldLinesChangeNothing(m, log[..|log| - 1]);
    }
  }

  lemma {:induction false} CountedAreNotLater(log: seq<Entry>, n: nat)
    requires Ticking(log) && n <= |log|
    ensures forall i :: 0 <= i < n && Counted(log[i].line) ==> log[i].ts <= LastCounted(log[..n])
    decreases n
  {
    if n == 0 {
    } else {
      CountedAreNotLater(log, n - 1);
      assert log[..n][..n - 1] == log[..n - 1];
    }
  }

  lemma TickingPrefix(log: seq<Entry>, n: nat)
    requires Ticking(log) && n <= |log|
    ensures Ticking(log[..n])
  {
    forall i | 0 <= i < n && Counted(log[..n][i].line) ensures log[..n][i].ts > LastCounted(log[..n][..i]) {
      assert log[..n][..i] == log[..i];
    }
  }

  /** A tail that starts at or before position r, where the meter stands, takes it to where the
      tail ends, or leaves it. */
  lemma OneMoreTail(log: seq<Entry>, r: nat, t: Tail)
    requires Ticking(log) && r <= |log| && t.from <= r && t.from <= t.to <= |log|
    ensures var m := MeterRun(FRESH_METER, log[..r]);
            MeterRun(m, log[t.from..t.to]) == MeterRun(FRESH_METER, log[..if t.to > r then t.to else r])
  {
    var m := MeterRun(FRESH_METER, log[..r]);
    TickingPrefix(log, r);
    MeterIsTally(log[..r]);
    CountedAreNotLater(log, r);
    if t.to <= r {
      OldLinesChangeNothing(m, log[t.from..t.to]);
    } else {
      OldLinesChangeNothing(m, log[t.from..r]);
      assert log[t.from..t.to] == log[t.from..r] + log[r..t.to];
      MeterRunAppend(m, log[t.from..r], log[r..t.to]);
      assert log[..t.to] == log[..r] + log[r..t.to];
      MeterRunAppend(FRESH_METER, log[..r], log[r..t.to]);
    }
  }

  lemma {:induction false} DeliveredIsOnce(log: seq<Entry>, tails: seq<Tail>)
    requires Ticking(log) && Gapless(log, tails)
    ensures Reached(tails) <= |log|
    ensures MeterRun(FRESH_METER, Delivered(log, tails)) == MeterRun(FRESH_METER, log[..Reached(tails)])
    decreases |tails|
  {
    hide Ticking, MeterRun;
    if tails == [] {
      assert log[..0] == [];
    } else {
      var front, t := tails[..|tails| - 1], tails[|tails| - 1];
      assert forall i :: 0 <= i < |front| ==> front[i] == tails[i] && front[..i] == tails[..i];
      DeliveredIsOnce(log, front);
      MeterRunAppend(FRESH_METER, Delivered(log, front), log[t.from..t.to]);
      OneMoreTail(log, Reached(front), t);
    }
  }

  /** The main result on counting: whatever the respawns, so long as they skip nothing, each signal
      counts once. The counters are those of the log read once, as far as it was read. */
  lemma CountsExactlyOnce(log: seq<Entry>, tails: seq<Tail>)
    requires Ticking(log) && Gapless(log, tails)
    ensures Reached(tails) <= |log|
    ensures MeterRun(FRESH_METER, Delivered(log, tails)).counters == Tally(log[..Reached(tails)])
  {
    DeliveredIsOnce(log, tails);
    TickingPrefix(log, Reached(tails));
    MeterIsTally(log[..Reached(tails)]);
  }

  // ------------------------------------------------------ slots and requests --

  datatype Phase = Prefill | Decode | Idle

  /** A slot's live state; a field is None until some line has set it. */
  datatype Slot = Slot(
    id: nat, task: Option<int>, phase: Option<Phase>, ts: Option<real>, generated: Option<nat>,
    rate: Option<real>, rate3s: Option<real>, started: Option<real>, pick: Option<Pick>,
    child: Option<bool>, nextPick: Option<Pick>)

  /** A request being put together, and in the end completed. */
  datatype Request = Request(
    task: int, slot: nat, ts: Option<real>, started: Option<real>, pick: Option<Pick>,
    prompt: Option<(real, nat, real)>, eval: Option<(real, nat, real)>, total: Option<(real, nat)>,
    draft: Option<(real, nat, nat, real)>, graphs: Option<nat>,
    tokens: Option<nat>, truncated: Option<bool>, finished: Option<real>, wall: Option<real>)

  function NewSlot(id: nat): Slot { Slot(id, None, None, None, None, None, None, None, None, None, None) }

  function NewRequest(task: int, slot: nat): Request {
    Request(task, slot, None, None, None, None, None, None, None, None, None, None, None, None)
  }

  /** `done` holds every completed request, newest first; the parser keeps the first of them. */
  datatype Tracker = Tracker(slots: map<nat, Slot>, pending: map<int, Request>, done: seq<Request>)

  const FRESH_TRACKER := Tracker(map[], map[], [])

  function SlotAt(t: Tracker, id: nat): Slot {
    if id in t.slots then t.slots[id] else NewSlot(id)
  }

  function PendingAt(t: Tracker, task: int, slot: nat): Request {
    if task in t.pending then t.pending[task] else NewRequest(task, slot)
  }

  function Completed(r: Request, tokens: nat, truncated: bool, ts: real): Request {
    r.(tokens := Some(tokens), truncated := Some(truncated), finished := Some(ts),
       wall := if r.started.Some? && r.started.value != 0.0 then Some(ts - r.started.value) else r.wall)
  }

  function Track(t: Tracker, e: Entry): Tracker {
    var ts := e.ts;
    match e.line
    case Tg(s, task, n, rate, rate3s) =>
      t.(slots := t.slots[s := SlotAt(t, s).(task := Some(task), generated := Some(n), rate := Some(rate),
                                             rate3s := Some(rate3s), phase := Some(Decode), ts := Some(ts))])
    case Prompt(s, task, ms, tokens, tps) =>
      t.(pending := t.pending[task := PendingAt(t, task, s).(prompt := Some((ms, tokens, tps)), ts := Some(ts))],
         slots := t.slots[s := SlotAt(t, s).(phase := Some(Decode), ts := Some(ts))])
    case Eval(s, task, ms, tokens, tps) =>
      t.(pending := t.pending[task := PendingAt(t, task, s).(eval := Some((ms, tokens, tps)), ts := Some(ts))])
    case Total(s, task, ms, tokens) =>
      t.(pending := t.pending[task := PendingAt(t, task, s).(total := Some((ms, tokens)))])
    case Draft(s, task, accept, accepted, drafted, mean) =>
      t.(pending := t.pending[task := PendingAt(t, task, s).(draft := Some((accept, accepted, drafted, mean)))])
    case Graphs(s, task, n) =>
      t.(pending := t.pending[task := PendingAt(t, task, s).(graphs := Some(n))])
    case Launch(s, task, child) =>
      var was := SlotAt(t, s);
      t.(slots := t.slots[s := was.(nextPick := None, task := Some(task), phase := Some(Prefill), ts := Some(ts),
                                    generated := Some(0), started := Some(ts), pick := was.nextPick, child := Some(child))],
         pending := t.pending[task := NewRequest(task, s).(started := Some(ts), pick := was.nextPick)])
    case Release(s, task, tokens, truncated) =>
      t.(slots := t.slots[s := SlotAt(t, s).(phase := Some(Idle), ts := Some(ts), task := None)],
         pending := t.pending - {task},
         done := [Completed(PendingAt(t, task, s), tokens, truncated, ts)] + t.done)
    case PickLcp(s, similarity, keep) =>
      t.(slots := t.slots[s := SlotAt(t, s).(nextPick := Some(FromCache(similarity, keep)))])
    case PickLru(s) =>
      t.(slots := t.slots[s := SlotAt(t, s).(nextPick := Some(LeastRecent))])
    case Loading(_) => t.(slots := map[], pending := map[])
    case _ => t
  }

  function TrackRun(log: seq<Entry>): Tracker {
    if log == [] then FRESH_TRACKER else Track(TrackRun(log[..|log| - 1]), log[|log| - 1])
  }

  // ------------------------------------------------------- slots do not interfere --

  predicate OfSlot(line: Line, s: nat) {
    match line
    case Tg(x, _, _, _, _) => x == s
    case Prompt(x, _, _, _, _) => x == s
    case Eval(x, _, _, _, _) => x == s
    case Total(x, _, _, _) => x == s
    case Draft(x, _, _, _, _, _) => x == s
    case Graphs(x, _, _) => x == s
    case Launch(x, _, _) => x == s
    case Release(x, _, _, _) => x == s
    case PickLcp(x, _, _) => x == s
    case PickLru(x) => x == s
    case _ => false
  }

  /** A slot's own lines and the load lines. */
  function Only(log: seq<Entry>, s: nat): seq<Entry> {
    if log == [] then []
    else
      var front, e := Only(log[..|log| - 1], s), log[|log| - 1];
      if OfSlot(e.line, s) || e.line.Loading? then front + [e] else front
  }

  function DoneFor(done: seq<Request>, s: nat): seq<Request> {
    if done == [] then []
    else if done[0].slot == s then [done[0]] + DoneFor(done[1..], s)
    else DoneFor(done[1..], s)
  }

  /** The slot and task of a line that writes to a request. */
  function Writes(line: Line): Option<(nat, int)> {
    match line
    case Prompt(s, task, _, _, _) => Some((s, task))
    case Eval(s, task, _, _, _) => Some((s, task))
    case Total(s, task, _, _) => Some((s, task))
    case Draft(s, task, _, _, _, _) => Some((s, task))
    case Graphs(s, task, _) => Some((s, task))
    case Launch(s, task, _) => Some((s, task))
    case Release(s, task, _, _) => Some((s, task))
    case _ => None
  }

  /** The run over the whole log against the run over one slot's share of it. */
  predicate SameSlot(all: Tracker, own: Tracker, s: nat) {
    (s in all.slots <==> s in own.slots) && SlotAt(all, s) == SlotAt(own, s)
  }

  ghost predicate SamePending(all: map<int, Request>, own: map<int, Request>, owners: map<int, nat>, s: nat) {
    && (forall task :: task in all <==> task in owners)
    && (forall task :: task in all ==> all[task].slot == owners[task])
    && (forall task :: task in own <==> task in owners && owners[task] == s)
    && (forall task :: task in own ==> own[task] == all[task])
  }

  ghost predicate SameForSlot(all: Tracker, own: Tracker, owners: map<int, nat>, s: nat) {
    SameSlot(all, own, s) && SamePending(all.pending, own.pending, owners, s) && DoneFor(all.done, s) == own.done
  }

  function NextOwners(owners: map<int, nat>, line: Line): map<int, nat> {
    var w := Writes(line);
    if line.Loading? then map[]
    else if w.None? then owners
    else if line.Release? then owners - {w.value.1}
    else owners[w.value.1 := w.value.0]
  }

  predicate StaysOn(owners: map<int, nat>, line: Line) {
    var w := Writes(line);
    w.Some? && w.value.1 in owners ==> owners[w.value.1] == w.value.0
  }

  /** Which slot each unfinished task was last written from. */
  function Owners(log: seq<Entry>): map<int, nat> {
    if log == [] then map[] else NextOwners(Owners(log[..|log| - 1]), log[|log| - 1].line)
  }

  /** While a task is unfinished, it stays on one slot. */
  predicate Steady(log: seq<Entry>) {
    forall i :: 0 <= i < |log| ==> StaysOn(Owners(log[..i]), log[i].line)
  }

  lemma SlotStep(all: Tracker, own: Tracker, s: nat, e: Entry)
    requires SameSlot(all, own, s)
    ensures SameSlot(Track(all, e), if OfSlot(e.line, s) || e.line.Loading? then Track(own, e) else own, s)
  {
  }

  /** What a line makes of the request it writes to. */
  function Written(r: Request, pick: Option<Pick>, e: Entry): Request {
    match e.line
    case Prompt(_, _, ms, tokens, tps) => r.(prompt := Some((ms, tokens, tps)), ts := Some(e.ts))
    case Eval(_, _, ms, tokens, tps) => r.(eval := Some((ms, tokens, tps)), ts := Some(e.ts))
    case Total(_, _, ms, tokens) => r.(total := Some((ms, tokens)))
    case Draft(_, _, accept, accepted, drafted, mean) => r.(draft := Some((accept, accepted, drafted, mean)))
    case Graphs(_, _, n) => r.(graphs := Some(n))
    case Launch(s, task, _) => NewRequest(task, s).(started := Some(e.ts), pick := pick)
    case _ => r
  }

  lemma PendingAfter(t: Tracker, e: Entry)
    ensures var w := Writes(e.line);
            Track(t, e).pending ==
            if e.line.Loading? then map[]
            else if w.None? then t.pending
            else if e.line.Release? then t.pending - {w.value.1}
            else t.pending[w.value.1 := Written(PendingAt(t, w.value.1, w.value.0), SlotAt(t, w.value.0).nextPick, e)]
    ensures e.line.Loading? ==> Writes(e.line).None?
    ensures forall s :: Writes(e.line).Some? ==> (OfSlot(e.line, s) <==> Writes(e.line).value.0 == s)
  {
  }

  lemma PendingWritten(all: map<int, Request>, own: map<int, Request>, owners: map<int, nat>, s: nat, task: int, r: Request)
    requires SamePending(all, own, owners, s)
    requires task in owners ==> owners[task] == r.slot
    ensures SamePending(all[task := r], if r.slot == s then own[task := r] else own, owners[task := r.slot], s)
    ensures SamePending(all - {task}, if r.slot == s then own - {task} else own, owners - {task}, s)
  {
  }

  lemma WrittenKeepsSlot(r: Request, pick: Option<Pick>, e: Entry)
    requires Writes(e.line).Some? && r.slot == Writes(e.line).value.0
    ensures Written(r, pick, e).slot == r.slot
  {
  }

  lemma PendingStep(all: Tracker, own: Tracker, owners: map<int, nat>, s: nat, e: Entry)
    requires SameSlot(all, own, s) && SamePending(all.pending, own.pending, owners, s) && StaysOn(owners, e.line)
    ensures SamePending(Track(all, e).pending, (if OfSlot(e.line, s) || e.line.Loading? then Track(own, e) else own).pending,
                        NextOwners(owners, e.line), s)
  {
    hide Track, Written, OfSlot, Writes, SlotAt;
    PendingAfter(all, e);
    PendingAfter(own, e);
    var w := Writes(e.line);
    if w.Some? {
      var (x, task) := w.value;
      var r := Written(PendingAt(all, task, x), SlotAt(all, x).nextPick, e);
      WrittenKeepsSlot(PendingAt(all, task, x), SlotAt(all, x).nextPick, e);
      PendingWritten(all.pending, own.pending, owners, s, task, r);
    }
  }

  lemma DoneStep(all: Tracker, own: Tracker, owners: map<int, nat>, s: nat, e: Entry)
    requires SameForSlot(all, own, owners, s) && StaysOn(owners, e.line)
    ensures var t := if OfSlot(e.line, s) || e.line.Loading? then Track(own, e) else own;
            DoneFor(Track(all, e).done, s) == t.done
  {
    if e.line.Release? {
      var r := Completed(PendingAt(all, e.line.task, e.line.slot), e.line.tokens, e.line.truncated, e.ts);
      assert ([r] + all.done)[1..] == all.done;
      assert r.slot == e.line.slot;
    }
  }

  lemma {:induction false} SlotsDoNotInterfereOver(log: seq<Entry>, s: nat)
    requires Steady(log)
    ensures SameForSlot(TrackRun(log), TrackRun(Only(log, s)), Owners(log), s)
    decreases |log|
  {
    hide Track;
    if log == [] {
    } else {
      var front, e := log[..|log| - 1], log[|log| - 1];
      assert forall i :: 0 <= i < |front| ==> front[i] == log[i] && front[..i] == log[..i];
      SlotsDoNotInterfereOver(front, s);
      var own := Only(front, s);
      assert (own + [e])[..|own|] == own;
      var all, mine := TrackRun(front), TrackRun(own);
      assert StaysOn(Owners(front), e.line);
      SlotStep(all, mine, s, e);
      PendingStep(all, mine, Owners(front), s, e);
      DoneStep(all, mine, Owners(front), s, e);
    }
  }

  /** The main result on requests: however the slots' lines are interleaved, the requests completed
      on a slot, and its live state with the pick in it, are those its own lines and the load
      lines give. */
  lemma SlotsDoNotInterfere(log: seq<Entry>, s: nat)
    requires Steady(log)
    ensures DoneFor(TrackRun(log).done, s) == TrackRun(Only(log, s)).done
    ensures SlotAt(TrackRun(log), s) == SlotAt(TrackRun(Only(log, s)), s)
  {
    SlotsDoNotInterfereOver(log, s);
  }

  // --------------------------------------------------------- the load record --

  datatype LoadState = Unknown | InProgress | Complete

  datatype Load = Load(
    state: LoadState, started: Option<real>, finished: Option<real>, path: Option<string>,
    seconds: Option<real>, warnings: seq<string>)

  const FRESH_LOAD := Load(Unknown, None, None, None, None, [])

  function LoadAfter(l: Load, e: Entry): Load {
    match e.line
    case Loading(path) => Load(InProgress, Some(e.ts), None, Some(path), None, [])
    case Loaded =>
      l.(state := Complete, finished := Some(e.ts),
         seconds := if l.started.Some? && l.started.value != 0.0 then Some(e.ts - l.started.value) else l.seconds)
    case Oom(w) => if w in l.warnings then l else l.(warnings := l.warnings + [w])
    case _ => l
  }

  function LoadRun(l: Load, log: seq<Entry>): Load {
    if log == [] then l else LoadAfter(LoadRun(l, log[..|log| - 1]), log[|log| - 1])
  }

  // -------------------------------------------------------------- the parser --

  /** A deque of bounded length keeps the newest. */
  function Newest(done: seq<Request>): (kept: seq<Request>)
    ensures kept <= done && |kept| == if |done| <= MAX_REQUESTS then |done| else MAX_REQUESTS
  {
    if |done| <= MAX_REQUESTS then done else done[..MAX_REQUESTS]
  }

  lemma {:induction false} DoneForPrefix(a: seq<Request>, b: seq<Request>, s: nat)
    ensures DoneFor(a, s) <= DoneFor(a + b, s)
    decreases |a|
  {
    if a == [] {
      assert a + b == b;
    } else {
      assert (a + b)[1..] == a[1..] + b;
      DoneForPrefix(a[1..], b, s);
    }
  }

  /** What the bounded deque still holds of a slot is the newest of what the slot completed, as its
      own lines tell it, and all of it while no more requests than the deque holds have completed. */
  lemma DequeHoldsTheNewest(log: seq<Entry>, s: nat)
    requires Steady(log)
    ensures DoneFor(Newest(TrackRun(log).done), s) <= TrackRun(Only(log, s)).done
    ensures |TrackRun(log).done| <= MAX_REQUESTS ==> DoneFor(Newest(TrackRun(log).done), s) == TrackRun(Only(log, s)).done
  {
    hide TrackRun, Only, Steady;
    SlotsDoNotInterfere(log, s);
    var done := TrackRun(log).done;
    var kept := Newest(done);
    assert done == kept + done[|kept|..];
    DoneForPrefix(kept, done[|kept|..], s);
  }

  // -------------------------------------------------------- what the page is told --

  const MAX_EVENTS := 220

  datatype Emitted =
    | Launched(ts: real, slot: nat, task: int, how: Option<Pick>)
    | Released(ts: real, slot: nat, task: int, generated: Option<nat>)
    | LoadBegun(ts: real)
    | LoadEnded(ts: real)
    | Warned(ts: real, warning: string)

  /** The event a line gives rise to, given what the parser knows when it reads it. */
  function Emission(t: Tracker, l: Load, e: Entry): Option<Emitted> {
    match e.line
    case Launch(s, task, _) => Some(Launched(e.ts, s, task, SlotAt(t, s).nextPick))
    case Release(s, task, _, _) => Some(Released(e.ts, s, task, GeneratedBy(PendingAt(t, task, s))))
    case Loading(_) => Some(LoadBegun(e.ts))
    case Loaded => Some(LoadEnded(e.ts))
    case Oom(w) => if w in l.warnings then None else Some(Warned(e.ts, w))
    case _ => None
  }

  function GeneratedBy(r: Request): Option<nat> { if r.eval.Some? then Some(r.eval.value.1) else None }

  /** A bounded deque that grows at its other end. */
  function Latest(events: seq<Emitted>): (kept: seq<Emitted>)
    ensures |kept| == if |events| <= MAX_EVENTS then |events| else MAX_EVENTS
    ensures kept == events[|events| - |kept|..]
  {
    if |events| <= MAX_EVENTS then events else events[|events| - MAX_EVENTS..]
  }

  function WithEvent(events: seq<Emitted>, e: Option<Emitted>): seq<Emitted> {
    if e.None? then events else Latest(events + [e.value])
  }

  /** Everything a log gives rise to. */
  function Emissions(log: seq<Entry>): seq<Emitted> {
    if log == [] then []
    else
      var front, e := log[..|log| - 1], log[|log| - 1];
      var x := Emission(TrackRun(front), LoadRun(FRESH_LOAD, front), e);
      if x.None? then Emissions(front) else Emissions(front) + [x.value]
  }

  /** The pattern a line counts against. */
  function PatternOf(line: Line): Option<string> {
    match line
    case AuthFail => Some("auth_fail")
    case CacheEvict(_) => Some("cache_evict")
    case CacheSkip(_) => Some("cache_skip")
    case Cancel => Some("cancel")
    case Tg(_, _, _, _, _) => Some("tg")
    case Prompt(_, _, _, _, _) => Some("prompt")
    case Eval(_, _, _, _, _) => Some("eval")
    case Total(_, _, _, _) => Some("total")
    case Draft(_, _, _, _, _, _) => Some("draft")
    case Graphs(_, _, _) => Some("graphs")
    case Launch(_, _, _) => Some("launch")
    case Release(_, _, _, _) => Some("release")
    case PickLcp(_, _, _) => Some("pick_lcp")
    case PickLru(_) => Some("pick_lru")
    case Loading(_) => Some("loading")
    case Loaded => Some("loaded")
    case Oom(_) => Some("oom")
    case Unmatched => None
  }

  /** The lines that count against a pattern. */
  function OfPattern(name: string): Line -> bool { (l: Line) => PatternOf(l) == Some(name) }

  function CountIn(matched: map<string, nat>, name: string): nat { if name in matched then matched[name] else 0 }

  function Matched(matched: map<string, nat>, line: Line): map<string, nat> {
    match PatternOf(line)
    case None => matched
    case Some(name) => matched[name := CountIn(matched, name) + 1]
  }

  /** A line touches only what its handler writes. */
  lemma OthersUntouched(t: Tracker, l: Load, m: Meter, e: Entry)
    ensures Counted(e.line) || e.line.Unmatched? ==> Track(t, e) == t && LoadAfter(l, e) == l && Emission(t, l, e) == None
    ensures !Counted(e.line) ==> Metered(m, e) == m
    ensures !e.line.Loading? && !e.line.Loaded? && !e.line.Oom? ==>
      LoadAfter(l, e) == l && forall k :: Emission(t, l, e) == Emission(t, k, e)
    ensures e.line.Release? ==>
      e == Entry(e.ts, Release(e.line.slot, e.line.task, e.line.tokens, e.line.truncated)) &&
      Emission(t, l, e) == Some(Released(e.ts, e.line.slot, e.line.task, GeneratedBy(PendingAt(t, e.line.task, e.line.slot))))
  {
  }

  class JournalParser {
    var slots: map<nat, Slot>
    var pending: map<int, Request>
    var requests: seq<Request>
    var load: Load
    var counters: Counters
    var countHwm: real
    var cacheLimit: Option<real>
    var events: seq<Emitted>
    var linesSeen: nat
    var matched: map<string, nat>
    ghost var done: seq<Request>

    ghost predicate Valid()
      reads this
    {
      requests == Newest(done)
    }

    ghost function Tracked(): Tracker
      reads this
    {
      Tracker(slots, pending, done)
    }

    constructor ()
      ensures Valid() && Tracked() == FRESH_TRACKER && load == FRESH_LOAD && Meter(counters, countHwm) == FRESH_METER
      ensures events == [] && linesSeen == 0 && matched == map[] && cacheLimit == None
    {
      slots, pending, requests, done := map[], map[], [], [];
      load, counters, countHwm, cacheLimit := FRESH_LOAD, ZERO, 0.0, None;
      events, linesSeen, matched := [], 0, map[];
    }

    method ResetLoad()
      modifies this`load
      ensures load == FRESH_LOAD
    {
      load := FRESH_LOAD;
    }

    /** Counts a signal once, however often its line is read again. */
    method Count(ts: real, line: Line)
      requires Counted(line)
      modifies this`counters, this`countHwm
      ensures Meter(counters, countHwm) == Metered(old(Meter(counters, countHwm)), Entry(ts, line))
    {
      if ts <= countHwm {
        return;
      }
      countHwm := ts;
      match line {
        case AuthFail => counters := counters.(authFail := counters.authFail + 1);
        case CacheEvict(mib) =>
          counters := counters.(evict := counters.evict + 1);
          counters := counters.(evictMib := counters.evictMib + mib);
        case CacheSkip(_) => counters := counters.(skip := counters.skip + 1);
        case Cancel => counters := counters.(cancel := counters.cancel + 1);
      }
    }

    /** Reads one line. Each of its effects is the specification's. */
    method Ingest(e: Entry)
      requires Valid()
      modifies this
      ensures Valid()
      ensures Tracked() == Track(old(Tracked()), e)
      ensures Meter(counters, countHwm) == Metered(old(Meter(counters, countHwm)), e)
      ensures load == LoadAfter(old(load), e)
      ensures cacheLimit == if e.line.CacheSkip? then Some(e.line.limit) else old(cacheLimit)
      ensures events == WithEvent(old(events), Emission(old(Tracked()), old(load), e))
      ensures linesSeen == old(linesSeen) + 1 && matched == Matched(old(matched), e.line)
    {
      hide Track, LoadAfter, Metered, Emission, Newest, Latest;
      OthersUntouched(Tracked(), load, Meter(counters, countHwm), e);
      linesSeen := linesSeen + 1;
      var name := PatternOf(e.line);
      if name.None? { return; }
      matched := matched[name.value := CountIn(matched, name.value) + 1];
      hide PatternOf;
      if Counted(e.line) {
        if e.line.CacheSkip? {
          cacheLimit := Some(e.line.limit);
        }
        Count(e.ts, e.line);
      } else if e.line.Release? {
        HandleRelease(e.ts, e.line.slot, e.line.task, e.line.tokens, e.line.truncated);
      } else if e.line.Loading? || e.line.Loaded? || e.line.Oom? {
        HandleLoadLine(e);
      } else {
        HandleSlotLine(e);
      }
    }

    /** The lines of a model load. */
    method HandleLoadLine(e: Entry)
      requires e.line.Loading? || e.line.Loaded? || e.line.Oom?
      modifies this`slots, this`pending, this`load, this`events
      ensures Tracked() == Track(old(Tracked()), e) && load == LoadAfter(old(load), e)
      ensures events == WithEvent(old(events), Emission(old(Tracked()), old(load), e))
    {
      var ts := e.ts;
      match e.line {
        case Loading(path) =>
          load := Load(InProgress, Some(ts), None, Some(path), None, []);
          slots, pending := map[], map[];
          Emit(LoadBegun(ts));
        case Loaded =>
          var started := load.started;
          load := load.(state := Complete, finished := Some(ts));
          if started.Some? && started.value != 0.0 {
            load := load.(seconds := Some(ts - started.value));
          }
          Emit(LoadEnded(ts));
        case Oom(w) =>
          if w !in load.warnings {
            load := load.(warnings := load.warnings + [w]);
            Emit(Warned(ts, w));
          }
      }
    }

    method HandleRelease(ts: real, s: nat, task: int, tokens: nat, truncated: bool)
      requires Valid()
      modifies this`slots, this`pending, this`requests, this`done, this`events
      ensures Valid() && Tracked() == Track(old(Tracked()), Entry(ts, Release(s, task, tokens, truncated)))
      ensures events == WithEvent(old(events), Some(Released(ts, s, task, GeneratedBy(PendingAt(old(Tracked()), task, s)))))
    {
      hide WithEvent, Newest, Completed, GeneratedBy;
      slots := slots[s := (if s in slots then slots[s] else NewSlot(s)).(phase := Some(Idle), ts := Some(ts), task := None)];
      var r := if task in pending then pending[task] else NewRequest(task, s);
      pending := pending - {task};
      r := Finish(r, tokens, truncated, ts);
      KeepRequest(r);
      Emit(Released(ts, s, task, GeneratedBy(r)));
    }

    /** What a release adds to a request. */
    method Finish(was: Request, tokens: nat, truncated: bool, ts: real) returns (r: Request)
      ensures r == Completed(was, tokens, truncated, ts) && GeneratedBy(r) == GeneratedBy(was)
    {
      r := was.(tokens := Some(tokens), truncated := Some(truncated), finished := Some(ts));
      if r.started.Some? && r.started.value != 0.0 {
        r := r.(wall := Some(ts - r.started.value));
      }
    }

    method KeepRequest(r: Request)
      requires Valid()
      modifies this`requests, this`done
      ensures Valid() && done == [r] + old(done)
    {
      requests := [r] + requests;
      if |requests| > MAX_REQUESTS {
        requests := requests[..MAX_REQUESTS];
      }
      done := [r] + done;
    }

    method Emit(x: Emitted)
      modifies this`events
      ensures events == WithEvent(old(events), Some(x))
    {
      events := events + [x];
      if |events| > MAX_EVENTS {
        events := events[|events| - MAX_EVENTS..];
      }
    }

    /** The lines that only write to a slot or to a request under way. */
    method HandleSlotLine(e: Entry)
      modifies this`slots, this`pending, this`events
      requires !e.line.Release? && !e.line.Loading? && !e.line.Loaded? && !e.line.Oom?
      ensures Tracked() == Track(old(Tracked()), e)
      ensures events == WithEvent(old(events), Emission(old(Tracked()), load, e))
    {
      var ts := e.ts;
      match e.line {
        case Tg(s, task, n, rate, rate3s) =>
          var slot := if s in slots then slots[s] else NewSlot(s);
          slots := slots[s := slot.(task := Some(task), generated := Some(n), rate := Some(rate), rate3s := Some(rate3s),
                                    phase := Some(Decode), ts := Some(ts))];
        case Prompt(s, task, ms, tokens, tps) =>
          var r := if task in pending then pending[task] else NewRequest(task, s);
          pending := pending[task := r.(prompt := Some((ms, tokens, tps)), ts := Some(ts))];
          var slot := if s in slots then slots[s] else NewSlot(s);
          slots := slots[s := slot.(phase := Some(Decode), ts := Some(ts))];
        case Eval(s, task, ms, tokens, tps) =>
          var r := if task in pending then pending[task] else NewRequest(task, s);
          pending := pending[task := r.(eval := Some((ms, tokens, tps)), ts := Some(ts))];
        case Total(s, task, ms, tokens) =>
          var r := if task in pending then pending[task] else NewRequest(task, s);
          pending := pending[task := r.(total := Some((ms, tokens)))];
        case Draft(s, task, accept, accepted, drafted, mean) =>
          var r := if task in pending then pending[task] else NewRequest(task, s);
          pending := pending[task := r.(draft := Some((accept, accepted, drafted, mean)))];
        case Graphs(s, task, n) =>
          var r := if task in pending then pending[task] else NewRequest(task, s);
          pending := pending[task := r.(graphs := Some(n))];
        case Launch(s, task, child) =>
          var slot := if s in slots then slots[s] else NewSlot(s);
          var pick := slot.nextPick;
          slot := slot.(nextPick := None);
          slots := slots[s := slot.(task := Some(task), phase := Some(Prefill), ts := Some(ts), generated := Some(0),
                                    started := Some(ts), pick := pick, child := Some(child))];
          pending := pending[task := NewRequest(task, s).(started := Some(ts), pick := pick)];
          Emit(Launched(ts, s, task, pick));
        case PickLcp(s, similarity, keep) =>
          var slot := if s in slots then slots[s] else NewSlot(s);
          slots := slots[s := slot.(nextPick := Some(FromCache(similarity, keep)))];
        case PickLru(s) =>
          var slot := if s in slots then slots[s] else NewSlot(s);
          slots := slots[s := slot.(nextPick := Some(LeastRecent))];
        case _ =>
      }
    }
  }
}
