/** Push notifications (app/inferenceinquire/notify.py): what is announced, across restarts, and
    how often delivery is tried. */
module Notifier {

  import opened Basics
  import opened AlertGate

  const MAX_LINES := 12
  const RETRY_EVERY := 60.0
  const GIVE_UP_AFTER := 3600.0

  /** An alert announced and not yet cleared. */
  datatype Announced = Announced(title: string, level: Level)

  datatype Line =
    | Raised(key: string, title: string, level: Level)
    | Escalated(key: string, title: string, level: Level)
    | Cleared(key: string, title: string)

  /** What is announced and when, in memory and, under one key, in the store. */
  datatype Book = Book(open: map<string, Announced>, last: map<string, real>)

  const EMPTY_BOOK := Book(map[], map[])

  /** A message shows its first lines, and how many more there were. */
  datatype Message = Message(lines: seq<Line>, extra: nat, at: real, next: real)

  function Rank(l: Level): nat {
    match l case Warning => 1 case Serious => 2 case Critical => 3
  }

  /** The alerts to push, by key: the last of a key counts. */
  function Current(shown: seq<Shown>): (c: map<string, Alert>)
    ensures forall key :: key in c ==> c[key].key == key
  {
    if shown == [] then map[]
    else
      var s := shown[|shown| - 1];
      var c := Current(shown[..|shown| - 1]);
      if s.notify then c[s.alert.key := s.alert] else c
  }

  // --------------------------------------------- one poll, as one key sees it --

  /** What the book says of one key. */
  datatype Entry = Entry(open: Option<Announced>, last: Option<real>)

  function Lookup<T>(m: map<string, T>, key: string): Option<T> {
    if key in m then Some(m[key]) else None
  }

  function EntryOf(b: Book, key: string): Entry {
    Entry(Lookup(b.open, key), Lookup(b.last, key))
  }

  predicate MayAnnounce(cooldown: real, last: Option<real>, level: Level, now: real) {
    level == Critical || now - last.Or(0.0) >= cooldown
  }

  /** A current alert against its entry: a raise, an escalation, or nothing. */
  function Announce(cooldown: real, e: Entry, a: Alert, now: real): (Entry, seq<Line>) {
    var noted := Entry(Some(Announced(a.title, a.level)), Some(now));
    match e.open
    case None =>
      if MayAnnounce(cooldown, e.last, a.level, now) then (noted, [Raised(a.key, a.title, a.level)]) else (e, [])
    case Some(was) =>
      if Rank(a.level) > Rank(was.level) then (noted, [Escalated(a.key, a.title, a.level)]) else (e, [])
  }

  lemma AtMostOne(cooldown: real, e: Entry, a: Alert, now: real)
    ensures var lines := Announce(cooldown, e, a, now).1;
            |lines| <= 1 && (|lines| == 1 ==> lines[0].key == a.key && !lines[0].Cleared?)
  {
  }

  function Announced1(cooldown: real, e: Entry, cur: Option<Alert>, now: real): (Entry, seq<Line>) {
    match cur
    case Some(a) => Announce(cooldown, e, a, now)
    case None => (e, [])
  }

  /** One poll for one key: its current alert if there is one, and whether clears may be told. */
  function KeyStep(cooldown: real, key: string, e: Entry, cur: Option<Alert>, canClear: bool, now: real): (Entry, seq<Line>) {
    match cur
    case Some(a) => Announce(cooldown, e, a, now)
    case None =>
      if canClear && e.open.Some? then (e.(open := None), [Cleared(key, e.open.value.title)]) else (e, [])
  }

  lemma TwoParts(cooldown: real, key: string, e: Entry, mid: Entry, told: seq<Line>, cur: Option<Alert>, canClear: bool, now: real)
    requires (mid, told) == Announced1(cooldown, e, cur, now)
    ensures KeyStep(cooldown, key, e, cur, canClear, now)
         == if canClear && cur.None? && mid.open.Some?
            then (mid.(open := None), told + [Cleared(key, mid.open.value.title)]) else (mid, told)
  {
    if cur.None? && mid.open.Some? {
      assert told + [Cleared(key, mid.open.value.title)] == [Cleared(key, mid.open.value.title)];
    }
  }

  function LinesFor(lines: seq<Line>, key: string): seq<Line> {
    if lines == [] then []
    else
      var l := lines[|lines| - 1];
      LinesFor(lines[..|lines| - 1], key) + if l.key == key then [l] else []
  }

  lemma LinesForAppend(lines: seq<Line>, l: Line, key: string)
    ensures LinesFor(lines + [l], key) == LinesFor(lines, key) + if l.key == key then [l] else []
  {
    assert (lines + [l])[..|lines|] == lines;
  }

  lemma NoLines()
    ensures forall x :: LinesFor([], x) == []
  {
  }

  lemma LinesForMore(lines: seq<Line>, more: seq<Line>, key: string)
    requires |more| <= 1 && (more != [] ==> more[0].key == key) && LinesFor(lines, key) == []
    ensures forall x :: LinesFor(lines + more, x) == if x == key then more else LinesFor(lines, x)
  {
    forall x ensures LinesFor(lines + more, x) == if x == key then more else LinesFor(lines, x) {
      if more == [] {
        assert lines + more == lines;
      } else {
        LinesForAppend(lines, more[0], x);
      }
    }
  }

  lemma SameBook(b: Book, c: Book)
    requires forall key :: EntryOf(b, key) == EntryOf(c, key)
    ensures b == c
  {
    forall key ensures key in b.open <==> key in c.open { assert EntryOf(b, key) == EntryOf(c, key); }
    forall key | key in b.open ensures b.open[key] == c.open[key] { assert EntryOf(b, key) == EntryOf(c, key); }
    forall key ensures key in b.last <==> key in c.last { assert EntryOf(b, key) == EntryOf(c, key); }
    forall key | key in b.last ensures b.last[key] == c.last[key] { assert EntryOf(b, key) == EntryOf(c, key); }
    assert b.open == c.open && b.last == c.last;
  }

  /** A poll with nothing to say for any key left the book as it was. */
  lemma QuietBook(cooldown: real, b: Book, current: map<string, Alert>, canClear: bool, now: real, c: Book)
    requires forall key ::
      (EntryOf(c, key), LinesFor([], key)) == KeyStep(cooldown, key, EntryOf(b, key), Lookup(current, key), canClear, now)
    ensures b == c
  {
    forall key ensures EntryOf(b, key) == EntryOf(c, key) {
      assert LinesFor([], key) == [];
    }
    SameBook(b, c);
  }

  /** The one entry of the key-value store that matters here. */
  class Store {
    var notifyState: Option<Book>

    constructor ()
      ensures notifyState == None
    {
      notifyState := None;
    }
  }

  class Notifier {
    const store: Store
    const cooldown: real
    const started: real
    const grace: real
    var open: map<string, Announced>
    var last: map<string, real>
    var outbox: seq<Message>

    ghost function Memory(): Book
      reads this
    {
      Book(open, last)
    }

    /** What was persisted is what is known. */
    ghost predicate Valid()
      reads this, store
    {
      store.notifyState.Or(EMPTY_BOOK) == Memory()
    }

    /** A start, or a restart: the book comes back from the store, the outbox is lost. */
    constructor (store: Store, cooldown: real, grace: real, started: real)
      ensures this.store == store && this.cooldown == cooldown && this.grace == grace && this.started == started
      ensures Valid() && Memory() == store.notifyState.Or(EMPTY_BOOK) && outbox == []
    {
      this.store, this.cooldown, this.grace, this.started := store, cooldown, grace, started;
      open := store.notifyState.Or(EMPTY_BOOK).open;
      last := store.notifyState.Or(EMPTY_BOOK).last;
      outbox := [];
    }

    /** The dictionary of alerts to push, and the order it iterates in. */
    method CurrentAlerts(shown: seq<Shown>) returns (current: map<string, Alert>, order: seq<string>)
      ensures current == Current(shown)
      ensures forall key :: key in order <==> key in current
      ensures forall i, j :: 0 <= i < j < |order| ==> order[i] != order[j]
    {
      current, order := map[], [];
      for i := 0 to |shown|
        invariant current == Current(shown[..i])
        invariant forall key :: key in order <==> key in current
        invariant forall i, j :: 0 <= i < j < |order| ==> order[i] != order[j]
      {
        assert shown[..i + 1][..i] == shown[..i];
        var a := shown[i].alert;
        if shown[i].notify {
          if a.key !in current {
            order := order + [a.key];
          }
          current := current[a.key := a];
        }
      }
      assert shown[..|shown|] == shown;
    }

    /** A raise or an escalation of one current alert, if it is news. */
    method AnnounceOne(a: Alert, now: real) returns (more: seq<Line>)
      modifies this`open, this`last
      ensures (EntryOf(Memory(), a.key), more) == Announce(cooldown, old(EntryOf(Memory(), a.key)), a, now)
      ensures forall key :: key != a.key ==> EntryOf(Memory(), key) == old(EntryOf(Memory(), key))
    {
      more := [];
      if a.key !in open {
        if a.level == Critical || now - (if a.key in last then last[a.key] else 0.0) >= cooldown {
          more := [Raised(a.key, a.title, a.level)];
          open := open[a.key := Announced(a.title, a.level)];
          last := last[a.key := now];
        }
      } else if Rank(a.level) > Rank(open[a.key].level) {
        more := [Escalated(a.key, a.title, a.level)];
        open := open[a.key := Announced(a.title, a.level)];
        last := last[a.key := now];
      }
    }

    /** Raises and escalations, key by key. */
    method AnnounceCurrent(current: map<string, Alert>, order: seq<string>, now: real) returns (lines: seq<Line>)
      requires forall key :: key in order <==> key in current
      requires forall i, j :: 0 <= i < j < |order| ==> order[i] != order[j]
      requires forall key :: key in current ==> current[key].key == key
      modifies this`open, this`last
      ensures forall key ::
        (EntryOf(Memory(), key), LinesFor(lines, key))
        == Announced1(cooldown, old(EntryOf(Memory(), key)), Lookup(current, key), now)
      ensures forall i :: 0 <= i < |lines| ==> !lines[i].Cleared?
    {
      hide Announce, LinesFor;
      lines := [];
      NoLines();
      for i := 0 to |order|
        invariant forall key ::
          (EntryOf(Memory(), key), LinesFor(lines, key))
          == Announced1(cooldown, old(EntryOf(Memory(), key)), if key in order[..i] then Lookup(current, key) else None, now)
        invariant forall i :: 0 <= i < |lines| ==> !lines[i].Cleared?
      {
        var key := order[i];
        assert key !in order[..i];
        assert order[..i + 1] == order[..i] + [key];
        assert EntryOf(Memory(), key) == old(EntryOf(Memory(), key)) && LinesFor(lines, key) == [];
        var more := AnnounceOne(current[key], now);
        AtMostOne(cooldown, old(EntryOf(Memory(), key)), current[key], now);
        LinesForMore(lines, more, key);
        lines := lines + more;
      }
      assert order[..|order|] == order;
    }

    /** Clears, for every open key that is no longer current. */
    method ClearOthers(current: map<string, Alert>, told: seq<Line>) returns (lines: seq<Line>)
      modifies this`open
      ensures forall key ::
        if key in old(open) && key !in current
        then key !in open && LinesFor(lines, key) == LinesFor(told, key) + [Cleared(key, old(open)[key].title)]
        else Lookup(open, key) == Lookup(old(open), key) && LinesFor(lines, key) == LinesFor(told, key)
      ensures told <= lines && forall i :: |told| <= i < |lines| ==> lines[i].Cleared?
    {
      hide LinesFor;
      lines := told;
      var keys := open.Keys;
      while keys != {}
        invariant forall key :: key in keys ==> key in old(open)
        invariant forall key ::
          if key in old(open) && key !in current && key !in keys
          then key !in open && LinesFor(lines, key) == LinesFor(told, key) + [Cleared(key, old(open)[key].title)]
          else Lookup(open, key) == Lookup(old(open), key) && LinesFor(lines, key) == LinesFor(told, key)
        invariant told <= lines && forall i :: |told| <= i < |lines| ==> lines[i].Cleared?
        decreases keys
      {
        var key :| key in keys;
        if key !in current {
          assert Lookup(open, key) == Lookup(old(open), key);
          var l := Cleared(key, open[key].title);
          forall x ensures LinesFor(lines + [l], x) == LinesFor(lines, x) + if x == key then [l] else [] {
            LinesForAppend(lines, l, x);
          }
          lines := lines + [l];
          open := open - {key};
        }
        keys := keys - {key};
      }
    }

    /** One poll. Each key is dealt with on its own, as KeyStep says; the lines go out in one
        message, announcements before clears; and the book is saved whenever it changed. */
    method Update(shown: seq<Shown>, now: real) returns (ghost lines: seq<Line>)
      requires Valid()
      modifies this`open, this`last, this`outbox, store
      ensures Valid()
      ensures forall key ::
        (EntryOf(Memory(), key), LinesFor(lines, key))
        == KeyStep(cooldown, key, old(EntryOf(Memory(), key)), Lookup(Current(shown), key), now - started >= grace, now)
      ensures forall i, j :: 0 <= i < j < |lines| && lines[i].Cleared? ==> lines[j].Cleared?
      ensures lines == [] ==> outbox == old(outbox)
      ensures lines != [] ==> outbox == old(outbox) + [Digest(lines, now)]
    {
      hide Current, Announce, LinesFor, KeyStep, Announced1;
      ghost var before := Memory();
      var current, order := CurrentAlerts(shown);
      var told := AnnounceCurrent(current, order, now);
      var said := told;
      ghost var mid := Memory();
      if now - started >= grace {
        said := ClearOthers(current, told);
      }
      lines := said;
      forall key ensures (EntryOf(Memory(), key), LinesFor(lines, key))
        == KeyStep(cooldown, key, EntryOf(before, key), Lookup(current, key), now - started >= grace, now)
      {
        TwoParts(cooldown, key, EntryOf(before, key), EntryOf(mid, key), LinesFor(told, key), Lookup(current, key),
                 now - started >= grace, now);
        assert EntryOf(mid, key).last == EntryOf(Memory(), key).last;
      }
      if said == [] {
        QuietBook(cooldown, before, current, now - started >= grace, now, Memory());
        return;
      }
      store.notifyState := Some(Book(open, last));
      outbox := outbox + [Digest(said, now)];
    }

    /** One delivery round. Whether an attempt goes through is not ours to say. */
    method Deliver(now: real) returns (ghost oks: seq<bool>)
      modifies this`outbox
      ensures |oks| == |old(outbox)| && outbox == DeliverAll(old(outbox), now, oks)
    {
      var due := outbox;
      var kept := 0;
      oks := [];
      for i := 0 to |due|
        invariant |oks| == i && kept <= |outbox|
        invariant outbox[..kept] == DeliverAll(due[..i], now, oks)
        invariant outbox[kept..] == due[i..]
      {
        var msg := due[i];
        assert outbox[kept] == outbox[kept..][0] && outbox[kept + 1..] == outbox[kept..][1..];
        assert due[..i + 1][..i] == due[..i];
        var ok: bool := *;
        assert (oks + [ok])[..i] == oks;
        oks := oks + [ok];
        if msg.next > now {
          kept := kept + 1;
        } else if ok || now - msg.at > GIVE_UP_AFTER {
          outbox := outbox[..kept] + outbox[kept + 1..];
        } else {
          outbox := outbox[kept := msg.(next := now + RETRY_EVERY)];
          kept := kept + 1;
        }
      }
      assert due[..|due|] == due && outbox[..kept] == outbox;
    }
  }

  // ---------------------------------------------------------------- delivery --

  /** A message after an attempt: gone, or due again later. */
  function Tried(m: Message, now: real, ok: bool): Option<Message> {
    if ok || now - m.at > GIVE_UP_AFTER then None else Some(m.(next := now + RETRY_EVERY))
  }

  /** A message after a round: left alone before it is due, and tried once it is. */
  function Round(m: Message, now: real, ok: bool): Option<Message> {
    if m.next > now then Some(m) else Tried(m, now, ok)
  }

  /** The outbox after one round, given how each message's attempt would end. */
  function DeliverAll(msgs: seq<Message>, now: real, oks: seq<bool>): seq<Message>
    requires |oks| == |msgs|
  {
    if msgs == [] then []
    else
      var m := msgs[|msgs| - 1];
      var after := Round(m, now, oks[|msgs| - 1]);
      DeliverAll(msgs[..|msgs| - 1], now, oks[..|msgs| - 1]) + if after.Some? then [after.value] else []
  }

  datatype Attempt = Attempt(at: real, ok: bool)

  /** One message over any number of delivery rounds: what is left of it, and the attempts. */
  function Life(m: Message, rounds: seq<Attempt>): (Option<Message>, seq<Attempt>) {
    if rounds == [] then (Some(m), [])
    else
      var (left, tries) := Life(m, rounds[..|rounds| - 1]);
      var r := rounds[|rounds| - 1];
      if left.None? then (left, tries)
      else (Round(left.value, r.at, r.ok), if left.value.next > r.at then tries else tries + [r])
  }

  /** The main result on delivery: a message is tried at most 62 times, the retry interval apart
      at least, and never again once it went through. */
  lemma {:induction false} AttemptsAreBounded(m: Message, rounds: seq<Attempt>)
    requires m.next == m.at
    ensures var (left, tries) := Life(m, rounds);
            && |tries| <= 62
            && (forall i :: 0 <= i < |tries| - 1 ==> !tries[i].ok && tries[i + 1].at >= tries[i].at + RETRY_EVERY)
            && (left.Some? ==> |tries| <= 61 && left.value.at == m.at && left.value.next >= m.at + RETRY_EVERY * |tries| as real)
            && (left.Some? && tries != [] ==>
                  !tries[|tries| - 1].ok && left.value.next == tries[|tries| - 1].at + RETRY_EVERY)
            && (tries != [] && tries[|tries| - 1].ok ==> left.None?)
    decreases |rounds|
  {
    if rounds == [] {
    } else {
      AttemptsAreBounded(m, rounds[..|rounds| - 1]);
    }
  }

  /** When a message is tried next, read off its attempts alone. */
  function NextTry(m: Message, tries: seq<Attempt>): real {
    if tries == [] then m.at else tries[|tries| - 1].at + RETRY_EVERY
  }

  /** Delivered, or given up after more than an hour of failures. */
  predicate Settled(m: Message, tries: seq<Attempt>) {
    tries != [] && (tries[|tries| - 1].ok || tries[|tries| - 1].at - m.at > GIVE_UP_AFTER)
  }

  /** No message is lost, and none waits longer than it must: a message is gone exactly when its
      last attempt went through or came over an hour after it was written; until then it says what
      it said, and every round from the retry interval on tries it. */
  lemma {:induction false} TriedWhenDue(m: Message, rounds: seq<Attempt>, r: Attempt)
    requires m.next == m.at
    ensures var (left, tries) := Life(m, rounds);
            && (left.None? <==> Settled(m, tries))
            && (left.Some? ==> left.value == m.(next := NextTry(m, tries)))
            && Life(m, rounds + [r]).1 == if !Settled(m, tries) && NextTry(m, tries) <= r.at then tries + [r] else tries
    decreases |rounds|
  {
    assert (rounds + [r])[..|rounds|] == rounds;
    if rounds == [] {
    } else {
      var n := |rounds| - 1;
      assert rounds == rounds[..n] + [rounds[n]];
      TriedWhenDue(m, rounds[..n], rounds[n]);
    }
  }

  /** The message for a poll's lines. */
  function Digest(lines: seq<Line>, now: real): (m: Message)
    ensures m.lines <= lines && |m.lines| + m.extra == |lines|
    ensures |m.lines| <= MAX_LINES && (m.extra > 0 ==> |m.lines| == MAX_LINES)
  {
    if |lines| <= MAX_LINES then Message(lines, 0, now, now)
    else Message(lines[..MAX_LINES], |lines| - MAX_LINES, now, now)
  }

  // --------------------------------------------- runs, with restarts, for a key --

  /** What happens to one key: a poll with its current alert if there is one, or a restart. */
  datatype Event = Polled(cur: Option<Alert>, now: real) | Restarted(now: real)

  datatype Said = Said(line: Line, at: real)

  datatype Run = Run(entry: Entry, started: real, log: seq<Said>)

  /** The settings of notify.py. */
  datatype Settings = Settings(cooldown: real, grace: real)

  function Stamp(lines: seq<Line>, now: real): seq<Said> {
    seq(|lines|, i requires 0 <= i < |lines| => Said(lines[i], now))
  }

  /** A run from an empty store, started at t0. What was persisted is what was known,
      so a restart keeps the entry and moves the grace: see Drive. */
  function RunOf(k: Settings, key: string, t0: real, events: seq<Event>): Run {
    if events == [] then Run(Entry(None, None), t0, [])
    else
      var r := RunOf(k, key, t0, events[..|events| - 1]);
      match events[|events| - 1]
      case Restarted(now) => r.(started := now)
      case Polled(cur, now) =>
        var (e, lines) := KeyStep(k.cooldown, key, r.entry, cur, now - r.started >= k.grace, now);
        Run(e, r.started, r.log + Stamp(lines, now))
  }

  // ------------------------------------------ the notifiers over one store --

  /** What happens to a dashboard's notifier: a poll's alerts, a round of delivery, a restart. */
  datatype Happening = Polls(shown: seq<Shown>, now: real) | Delivers(now: real) | Restarts(now: real)

  /** The same, for one key. */
  function EventsOf(hs: seq<Happening>, key: string): seq<Event> {
    if hs == [] then []
    else
      var before := EventsOf(hs[..|hs| - 1], key);
      match hs[|hs| - 1]
      case Polls(shown, now) => before + [Polled(Lookup(Current(shown), key), now)]
      case Delivers(_) => before
      case Restarts(now) => before + [Restarted(now)]
  }

  /** What was said of a key. */
  function SaidOf(log: seq<Said>, key: string): seq<Said> {
    if log == [] then []
    else
      var before, s := SaidOf(log[..|log| - 1], key), log[|log| - 1];
      if s.line.key == key then before + [s] else before
  }

  lemma {:induction false} SaidOfStamped(log: seq<Said>, lines: seq<Line>, now: real, key: string)
    ensures SaidOf(log + Stamp(lines, now), key) == SaidOf(log, key) + Stamp(LinesFor(lines, key), now)
    decreases |lines|
  {
    if lines == [] {
      assert log + Stamp(lines, now) == log;
      assert SaidOf(log, key) + Stamp([], now) == SaidOf(log, key);
    } else {
      var front, l := lines[..|lines| - 1], lines[|lines| - 1];
      SaidOfStamped(log, front, now, key);
      var all := log + Stamp(lines, now);
      assert all[..|all| - 1] == log + Stamp(front, now);
      if l.key == key {
        assert Stamp(LinesFor(front, key) + [l], now) == Stamp(LinesFor(front, key), now) + [Said(l, now)];
      } else {
        assert LinesFor(front, key) + [] == LinesFor(front, key);
      }
    }
  }

  /** A notifier stands where its key's run does. */
  predicate StandsFor(k: Settings, key: string, t0: real, hs: seq<Happening>, book: Book, started: real, log: seq<Said>) {
    var r := RunOf(k, key, t0, EventsOf(hs, key));
    EntryOf(book, key) == r.entry && started == r.started && SaidOf(log, key) == r.log
  }

  lemma RunPolled(k: Settings, key: string, t0: real, hs: seq<Happening>, log: seq<Said>, lines: seq<Line>, shown: seq<Shown>, now: real)
    requires SaidOf(log, key) == RunOf(k, key, t0, EventsOf(hs, key)).log
    requires var r := RunOf(k, key, t0, EventsOf(hs, key));
             LinesFor(lines, key) == KeyStep(k.cooldown, key, r.entry, Lookup(Current(shown), key), now - r.started >= k.grace, now).1
    ensures var r, t := RunOf(k, key, t0, EventsOf(hs, key)), RunOf(k, key, t0, EventsOf(hs + [Polls(shown, now)], key));
            && t.started == r.started && SaidOf(log + Stamp(lines, now), key) == t.log
            && t.entry == KeyStep(k.cooldown, key, r.entry, Lookup(Current(shown), key), now - r.started >= k.grace, now).0
  {
    hide KeyStep, Current;
    var events := EventsOf(hs, key);
    assert (hs + [Polls(shown, now)])[..|hs|] == hs;
    var e := Polled(Lookup(Current(shown), key), now);
    assert (events + [e])[..|events|] == events;
    SaidOfStamped(log, lines, now, key);
  }

  lemma RunOther(k: Settings, key: string, t0: real, hs: seq<Happening>, h: Happening)
    requires !h.Polls?
    ensures var r, t := RunOf(k, key, t0, EventsOf(hs, key)), RunOf(k, key, t0, EventsOf(hs + [h], key));
            t == if h.Restarts? then r.(started := h.now) else r
  {
    var events := EventsOf(hs, key);
    assert (hs + [h])[..|hs|] == hs;
    if h.Restarts? {
      assert (events + [Restarted(h.now)])[..|events|] == events;
    }
  }

  /** One store, and over it one notifier after another: for every key they are the run that the
      results below are about. */
  method Drive(k: Settings, t0: real, hs: seq<Happening>) returns (store: Store, n: Notifier, ghost log: seq<Said>)
    ensures n.store == store && n.Valid()
    ensures forall key :: StandsFor(k, key, t0, hs, n.Memory(), n.started, log)
  {
    store := new Store();
    n := new Notifier(store, k.cooldown, k.grace, t0);
    log := [];
    for i := 0 to |hs|
      invariant fresh(store) && fresh(n) && n.store == store && n.Valid() && n.cooldown == k.cooldown && n.grace == k.grace
      invariant forall key :: StandsFor(k, key, t0, hs[..i], n.Memory(), n.started, log)
    {
      hide RunOf, EventsOf, SaidOf, KeyStep, LinesFor, Current;
      ghost var before, after := hs[..i], hs[..i + 1];
      assert after == before + [hs[i]];
      ghost var was, started := n.Memory(), n.started;
      assert forall key :: StandsFor(k, key, t0, before, was, started, log);
      ghost var lines: seq<Line> := [];
      match hs[i] {
        case Restarts(now) => n := new Notifier(store, k.cooldown, k.grace, now);
        case Delivers(now) => ghost var oks := n.Deliver(now);
        case Polls(shown, now) => lines := n.Update(shown, now);
      }
      ghost var more := if hs[i].Polls? then log + Stamp(lines, hs[i].now) else log;
      ghost var book, since := n.Memory(), n.started;
      forall key ensures StandsFor(k, key, t0, after, book, since, more) {
        assert StandsFor(k, key, t0, before, was, started, log);
        if hs[i].Polls? {
          RunPolled(k, key, t0, before, log, lines, hs[i].shown, hs[i].now);
        } else {
          RunOther(k, key, t0, before, hs[i]);
        }
      }
      log := more;
    }
    assert hs[..|hs|] == hs;
  }

  predicate Nondecreasing(events: seq<Event>) {
    forall i, j :: 0 <= i <= j < |events| ==> events[i].now <= events[j].now
  }

  /** A story a reader of the messages can follow: raised, then only worse, then cleared. */
  predicate Follows(before: Option<Line>, l: Line) {
    match l
    case Raised(_, _, _) => before.None? || before.value.Cleared?
    case Escalated(_, _, level) => before.Some? && !before.value.Cleared? && Rank(level) > Rank(before.value.level)
    case Cleared(_, _) => before.Some? && !before.value.Cleared?
  }

  /** The line before the i-th, if there is one. */
  function LineBefore(log: seq<Said>, i: nat): Option<Line>
    requires i <= |log|
  {
    if i == 0 then None else Some(log[i - 1].line)
  }

  predicate Story(log: seq<Said>) {
    forall i :: 0 <= i < |log| ==> Follows(LineBefore(log, i), log[i].line)
  }

  predicate News(l: Line) { l.Raised? || l.Escalated? }

  /** What the entry of a key says about its log. */
  predicate EntryTells(e: Entry, log: seq<Said>) {
    && (e.open.Some? <==> LineBefore(log, |log|).Some? && !log[|log| - 1].line.Cleared?)
    && (e.open.Some? ==> log[|log| - 1].line.level == e.open.value.level)
    && (forall i :: 0 <= i < |log| && News(log[i].line) ==> e.last.Some? && log[i].at <= e.last.value)
  }

  predicate Spaced(cooldown: real, log: seq<Said>) {
    forall i, j :: 0 <= i < j < |log| && News(log[i].line) && log[j].line.Raised? && log[j].line.level != Critical
      ==> log[j].at - log[i].at >= cooldown
  }

  predicate NotAfter(log: seq<Said>, now: real) {
    forall i :: 0 <= i < |log| ==> log[i].at <= now
  }

  lemma PollKeepsStory(cooldown: real, key: string, e: Entry, log: seq<Said>, cur: Option<Alert>, canClear: bool, now: real)
    requires Story(log) && EntryTells(e, log) && Spaced(cooldown, log) && NotAfter(log, now)
    ensures var (e1, lines) := KeyStep(cooldown, key, e, cur, canClear, now);
            var more := log + Stamp(lines, now);
            Story(more) && EntryTells(e1, more) && Spaced(cooldown, more) && NotAfter(more, now)
  {
    var (e1, lines) := KeyStep(cooldown, key, e, cur, canClear, now);
    if lines == [] {
      assert log + Stamp(lines, now) == log;
    } else {
      var s := Said(lines[0], now);
      assert log + Stamp(lines, now) == log + [s];
      StoryExtends(log, s);
      SpacedExtends(cooldown, e, log, s);
      assert EntryTells(e1, log + [s]);
    }
  }

  lemma SpacedExtends(cooldown: real, e: Entry, log: seq<Said>, s: Said)
    requires EntryTells(e, log) && Spaced(cooldown, log)
    requires s.line.Raised? ==> MayAnnounce(cooldown, e.last, s.line.level, s.at)
    ensures Spaced(cooldown, log + [s])
  {
    var more := log + [s];
    forall i, j | 0 <= i < j < |more| && News(more[i].line) && more[j].line.Raised? && more[j].line.level != Critical
      ensures more[j].at - more[i].at >= cooldown
    {
      assert more[i] == log[i];
      if j < |log| { assert more[j] == log[j]; }
    }
  }

  /** The main result on what is announced: over any run with any restarts, the messages about a
      key tell a story, and a raise that is not critical comes at least the cooldown after every
      earlier raise or escalation. */
  lemma {:induction false} MessagesTellAStory(k: Settings, key: string, t0: real, events: seq<Event>, now: real)
    requires Nondecreasing(events) && (events != [] ==> events[|events| - 1].now <= now)
    ensures var r := RunOf(k, key, t0, events);
            Story(r.log) && EntryTells(r.entry, r.log) && Spaced(k.cooldown, r.log) && NotAfter(r.log, now)
    decreases |events|
  {
    hide KeyStep, Story, EntryTells, Spaced;
    if events == [] {
      NothingSaid(k.cooldown);
    } else {
      var front, e := events[..|events| - 1], events[|events| - 1];
      assert front != [] ==> front[|front| - 1] == events[|events| - 2];
      MessagesTellAStory(k, key, t0, front, e.now);
      var r := RunOf(k, key, t0, front);
      if e.Polled? {
        PollKeepsStory(k.cooldown, key, r.entry, r.log, e.cur, e.now - r.started >= k.grace, e.now);
      }
    }
  }

  lemma NothingSaid(cooldown: real)
    ensures Story([]) && EntryTells(Entry(None, None), []) && Spaced(cooldown, [])
  {
  }

  lemma StoryExtends(log: seq<Said>, s: Said)
    requires Story(log) && Follows(LineBefore(log, |log|), s.line)
    ensures Story(log + [s])
  {
    var more := log + [s];
    forall i | 0 <= i < |more| ensures Follows(LineBefore(more, i), more[i].line) {
      assert LineBefore(more, i) == LineBefore(log, i);
      if i < |log| {
        assert Follows(LineBefore(log, i), log[i].line);
      }
    }
  }

  lemma StoryAt(log: seq<Said>, j: nat)
    requires Story(log) && j < |log|
    ensures Follows(LineBefore(log, j), log[j].line)
  {
  }

  /** Between a raise and its clear there are at most two escalations. */
  lemma {:induction false} AtMostTwoEscalations(log: seq<Said>, i: nat, j: nat)
    requires Story(log) && i <= j < |log| && !log[i].line.Cleared?
    requires forall x :: i < x <= j ==> log[x].line.Escalated?
    ensures Rank(log[j].line.level) >= Rank(log[i].line.level) + (j - i) && j - i <= 2
    decreases j
  {
    hide Story;
    if i == j {
    } else {
      AtMostTwoEscalations(log, i, j - 1);
      StoryAt(log, j);
    }
  }

  /** Once the grace is over, a poll leaves a key open exactly when it has an alert to push that
      was not held back by the cooldown. */
  lemma OpenAfterGrace(k: Settings, key: string, t0: real, events: seq<Event>, cur: Option<Alert>, now: real)
    requires now - RunOf(k, key, t0, events).started >= k.grace
    ensures var before := RunOf(k, key, t0, events).entry;
            var after := RunOf(k, key, t0, events + [Polled(cur, now)]).entry;
            after.open.Some? <==>
              cur.Some? && (before.open.Some? || MayAnnounce(k.cooldown, before.last, cur.value.level, now))
  {
    assert (events + [Polled(cur, now)])[..|events|] == events;
  }

  // ------------------------------------------------ what is due, from the log --

  /** One level is worse than another. */
  predicate Graver(l: Level, than: Level) {
    (l == Critical && than != Critical) || (l == Serious && than == Warning)
  }

  /** The key's alert stands announced: the last line about it is not its clear. */
  predicate Stands(log: seq<Said>) {
    log != [] && !log[|log| - 1].line.Cleared?
  }

  /** When the key was last raised or escalated; never is 0. */
  function LastNews(log: seq<Said>): real {
    if log == [] then 0.0
    else
      var s := log[|log| - 1];
      if News(s.line) then s.at else LastNews(log[..|log| - 1])
  }

  /** When the notifier last started. */
  function StartedAt(t0: real, events: seq<Event>): real {
    if events == [] then t0
    else
      var e := events[|events| - 1];
      if e.Restarted? then e.now else StartedAt(t0, events[..|events| - 1])
  }

  /** What a poll has to say after a log. An alert that stands gets worse, or nothing is said; one
      that does not is raised when it is critical or the cooldown is over; and an alert that stands
      and is gone is cleared, under the title last told, once the grace is over. */
  predicate SaysWhatIsDue(k: Settings, log: seq<Said>, started: real, key: string, cur: Option<Alert>, now: real,
                          said: seq<Said>)
  {
    match cur
    case Some(a) =>
      if Stands(log) then
        said == if Graver(a.level, log[|log| - 1].line.level) then [Said(Escalated(a.key, a.title, a.level), now)] else []
      else
        said == if a.level == Critical || now - LastNews(log) >= k.cooldown then [Said(Raised(a.key, a.title, a.level), now)] else []
    case None =>
      said == if Stands(log) && now - started >= k.grace then [Said(Cleared(key, log[|log| - 1].line.title), now)] else []
  }

  /** An entry holds no more than its log says. */
  predicate EntryIsLog(e: Entry, log: seq<Said>) {
    && e.last.Or(0.0) == LastNews(log)
    && (e.open.Some? <==> Stands(log))
    && (Stands(log) ==> e.open.value == Announced(log[|log| - 1].line.title, log[|log| - 1].line.level))
  }

  /** One poll of KeyStep, by the log. */
  lemma StepSaysWhatIsDue(k: Settings, key: string, r: Run, cur: Option<Alert>, now: real)
    requires EntryIsLog(r.entry, r.log)
    ensures var (e, lines) := KeyStep(k.cooldown, key, r.entry, cur, now - r.started >= k.grace, now);
            && SaysWhatIsDue(k, r.log, r.started, key, cur, now, Stamp(lines, now))
            && EntryIsLog(e, r.log + Stamp(lines, now))
  {
    var (e, lines) := KeyStep(k.cooldown, key, r.entry, cur, now - r.started >= k.grace, now);
    if lines == [] {
      assert r.log + Stamp(lines, now) == r.log;
    } else {
      assert Stamp(lines, now) == [Said(lines[0], now)];
      assert (r.log + Stamp(lines, now))[..|r.log|] == r.log;
    }
  }

  /** The main result on what is said when: over any run with any restarts, what a poll adds to the
      messages is what the messages so far, the last start and the poll's own alert make due. */
  lemma {:induction false} PollSaysWhatIsDue(k: Settings, key: string, t0: real, events: seq<Event>, cur: Option<Alert>, now: real)
    ensures var r, t := RunOf(k, key, t0, events), RunOf(k, key, t0, events + [Polled(cur, now)]);
            && EntryIsLog(r.entry, r.log) && r.started == StartedAt(t0, events)
            && r.log <= t.log
            && SaysWhatIsDue(k, r.log, StartedAt(t0, events), key, cur, now, t.log[|r.log|..])
    decreases |events|
  {
    hide KeyStep, SaysWhatIsDue, EntryIsLog, Stamp;
    var r := RunOf(k, key, t0, events);
    assert (events + [Polled(cur, now)])[..|events|] == events;
    if events == [] {
      assert EntryIsLog(r.entry, r.log) by { NothingStands(); }
    } else {
      var front, e := events[..|events| - 1], events[|events| - 1];
      var at := if e.Polled? then e else Polled(None, now);
      PollSaysWhatIsDue(k, key, t0, front, at.cur, at.now);
      StepSaysWhatIsDue(k, key, RunOf(k, key, t0, front), at.cur, at.now);
    }
    StepSaysWhatIsDue(k, key, r, cur, now);
    var lines := KeyStep(k.cooldown, key, r.entry, cur, now - r.started >= k.grace, now).1;
    assert (r.log + Stamp(lines, now))[|r.log|..] == Stamp(lines, now);
  }

  lemma NothingStands()
    ensures EntryIsLog(Entry(None, None), []) && !Stands([])
  {
  }

  /** The event whose poll last raised the key. */
  function RaisedAt(k: Settings, key: string, t0: real, events: seq<Event>): nat {
    if events == [] then 0
    else
      var front := events[..|events| - 1];
      var was, log := RunOf(k, key, t0, front).log, RunOf(k, key, t0, events).log;
      if |log| > |was| && log[|log| - 1].line.Raised? then |front| else RaisedAt(k, key, t0, front)
  }

  predicate Shows(e: Event) { e.Polled? && e.cur.Some? }

  /** The worst level any poll shows from the i-th event on. */
  predicate WorstSince(events: seq<Event>, i: nat, level: Level) {
    && (forall j :: i <= j < |events| && Shows(events[j]) ==> !Graver(events[j].cur.value.level, level))
    && (exists j :: i <= j < |events| && Shows(events[j]) && events[j].cur.value.level == level)
  }

  lemma WorstExtends(events: seq<Event>, i: nat, level: Level, e: Event)
    requires WorstSince(events, i, level)
    ensures WorstSince(events + [e], i,
                       if Shows(e) && Graver(e.cur.value.level, level) then e.cur.value.level else level)
  {
    var j :| i <= j < |events| && Shows(events[j]) && events[j].cur.value.level == level;
    var more := events + [e];
    assert more[j] == events[j] && more[|events|] == e;
  }

  lemma JustRaised(front: seq<Event>, e: Event)
    requires Shows(e)
    ensures WorstSince(front + [e], |front|, e.cur.value.level)
  {
    assert (front + [e])[|front|] == e;
  }

  /** One more poll: raised by it, or standing before it. */
  lemma WorstStep(k: Settings, key: string, was: seq<Said>, said: seq<Said>, started: real, front: seq<Event>, i: nat, e: Event)
    requires e.Polled? && SaysWhatIsDue(k, was, started, key, e.cur, e.now, said)
    requires Stands(was + said) && (Stands(was) ==> WorstSince(front, i, was[|was| - 1].line.level))
    ensures var log := was + said;
            && WorstSince(front + [e], if Stands(was) then i else |front|, log[|log| - 1].line.level)
            && (Stands(was) <==> !(said != [] && log[|log| - 1].line.Raised?))
  {
    hide WorstSince;
    if Stands(was) {
      WorstExtends(front, i, was[|was| - 1].line.level, e);
    } else {
      assert was + [] == was;
      JustRaised(front, e);
    }
  }

  /** While an alert stands, the level last told is the worst any poll has shown since its raise. */
  lemma {:induction false} LevelToldIsWorst(k: Settings, key: string, t0: real, events: seq<Event>)
    requires Stands(RunOf(k, key, t0, events).log)
    ensures var log := RunOf(k, key, t0, events).log;
            WorstSince(events, RaisedAt(k, key, t0, events), log[|log| - 1].line.level)
    decreases |events|
  {
    hide KeyStep, WorstSince, SaysWhatIsDue, EntryIsLog, Stamp;
    if events == [] {
    } else {
      var n := |events| - 1;
      var front, e := events[..n], events[n];
      assert events == front + [e];
      var was, log := RunOf(k, key, t0, front).log, RunOf(k, key, t0, events).log;
      if Stands(was) { LevelToldIsWorst(k, key, t0, front); }
      if e.Restarted? {
        WorstExtends(front, RaisedAt(k, key, t0, front), was[|was| - 1].line.level, e);
      } else {
        PollSaysWhatIsDue(k, key, t0, front, e.cur, e.now);
        assert log == was + log[|was|..];
        WorstStep(k, key, was, log[|was|..], StartedAt(t0, front), front, RaisedAt(k, key, t0, front), e);
      }
    }
  }

  // -------------------------------------------------- a restart and the gate --

  lemma {:induction false} CurrentIsPushed(shown: seq<Shown>, key: string)
    ensures key in Current(shown) <==> exists s :: s in shown && s.notify && s.alert.key == key
    decreases |shown|
  {
    if shown == [] {
    } else {
      CurrentIsPushed(shown[..|shown| - 1], key);
      assert shown == shown[..|shown| - 1] + [shown[|shown| - 1]];
    }
  }

  predicate LastPushed(shown: seq<Shown>, i: nat, key: string) {
    && i < |shown| && shown[i].notify && shown[i].alert.key == key
    && forall j :: i < j < |shown| && shown[j].notify ==> shown[j].alert.key != key
  }

  /** Of several alerts to push under one key the last is the one. */
  lemma {:induction false} CurrentIsLast(shown: seq<Shown>, i: nat, key: string)
    requires LastPushed(shown, i, key)
    ensures Lookup(Current(shown), key) == Some(shown[i].alert)
    decreases |shown|
  {
    var n := |shown| - 1;
    if i == n {
    } else {
      CurrentIsLast(shown[..n], i, key);
      assert shown[n].notify ==> shown[n].alert.key != key;
    }
  }

  /** One key after a restart at t0 that found entry e in the store: the new gate judges the
      polls, and the new notifier reads what it lets through. */
  function AfterRestart(g: Config, k: Settings, key: string, e: Entry, t0: real, polls: seq<Poll>): (Entry, seq<Said>) {
    if polls == [] then (e, [])
    else
      var (before, log) := AfterRestart(g, k, key, e, t0, polls[..|polls| - 1]);
      var now := polls[|polls| - 1].now;
      var (after, lines) := KeyStep(k.cooldown, key, before, Lookup(Current(Output(g, polls)), key), now - t0 >= k.grace, now);
      (after, log + Stamp(lines, now))
  }

  /** The condition is there on every poll, and worth pushing. */
  predicate HoldsThroughout(g: Config, polls: seq<Poll>, key: string) {
    forall i :: 0 <= i < |polls| ==>
      && HeldAt(polls, i, key)
      && forall a :: a in polls[i].alerts && a.key == key ==> g.ShouldNotify(key, a.level)
  }

  /** A transition holds the key back at poll i. */
  predicate Suppressed(g: Config, polls: seq<Poll>, key: string, i: nat)
    requires i < |polls|
  {
    key in g.transitionKeys && SuppressedAt(g, polls, i)
  }

  lemma HoldsThroughoutPrefix(g: Config, polls: seq<Poll>, key: string, m: nat)
    requires HoldsThroughout(g, polls, key) && m <= |polls|
    ensures HoldsThroughout(g, polls[..m], key)
  {
    forall i | 0 <= i < m ensures HeldAt(polls[..m], i, key) {
      assert HeldAt(polls, i, key);
    }
  }

  /** On the last of such polls the alert is there to push exactly when its hold time, counted
      from the first of them, is over and no transition holds it back. */
  lemma BackAfterHold(g: Config, polls: seq<Poll>, key: string)
    requires polls != [] && Clocked(polls) && g.transitionTail >= 0.0 && HoldsThroughout(g, polls, key)
    ensures var n := |polls| - 1;
            key in Current(Output(g, polls)) <==>
              polls[n].now - polls[0].now >= g.HoldOf(key) && !Suppressed(g, polls, key, n)
  {
    var n := |polls| - 1;
    var out := Output(g, polls);
    assert HeldAt(polls, n, key);
    assert HeldSince(polls, n, key) == 0;
    var i :| 0 <= i < |polls[n].alerts| && polls[n].alerts[i].key == key;
    var a := polls[n].alerts[i];
    GateEqualsHistory(g, polls, a);
    CurrentIsPushed(out, key);
    if Due(g, polls, n, key) {
      var s :| s in out && s.alert == a;
      assert s.notify;
    } else if key in Current(out) {
      var s :| s in out && s.notify && s.alert.key == key;
      GateEqualsHistory(g, polls, s.alert);
      OutputsAreAlerts(g, polls, s);
    }
  }

  lemma OutputsAreAlerts(g: Config, polls: seq<Poll>, s: Shown)
    requires polls != [] && s in Output(g, polls)
    ensures s.alert in polls[|polls| - 1].alerts
  {
    var st, p := After(g, polls), polls[|polls| - 1];
    LetIsFilter(g, Suppressing(g, st.transition, p.now), st.seen, p.alerts, p.now, s.alert);
  }

  /** The grace is over, and the alert is not back: its hold is not over yet, or a transition holds
      it back. */
  predicate AwayPoll(g: Config, k: Settings, key: string, t0: real, polls: seq<Poll>, i: nat)
    requires i < |polls|
  {
    && polls[i].now - t0 >= k.grace
    && (polls[i].now - polls[0].now < g.HoldOf(key) || Suppressed(g, polls, key, i))
  }

  predicate SomeAwayPoll(g: Config, k: Settings, key: string, t0: real, polls: seq<Poll>) {
    exists i :: 0 <= i < |polls| && AwayPoll(g, k, key, t0, polls, i)
  }

  predicate SaysCleared(log: seq<Said>) {
    exists i :: 0 <= i < |log| && log[i].line.Cleared?
  }

  predicate OnlyEscalates(log: seq<Said>) {
    forall i :: 0 <= i < |log| ==> log[i].line.Escalated?
  }

  lemma AwayOrBefore(g: Config, k: Settings, key: string, t0: real, polls: seq<Poll>)
    requires polls != []
    ensures SomeAwayPoll(g, k, key, t0, polls)
       <==> SomeAwayPoll(g, k, key, t0, polls[..|polls| - 1]) || AwayPoll(g, k, key, t0, polls, |polls| - 1)
  {
    var n := |polls| - 1;
    forall i | 0 <= i < n ensures AwayPoll(g, k, key, t0, polls[..n], i) <==> AwayPoll(g, k, key, t0, polls, i) {
      TransitionSincePrefix(g, polls, n, i);
    }
  }

  lemma LogGrows(log: seq<Said>, lines: seq<Line>, now: real)
    requires |lines| <= 1
    ensures var more := log + Stamp(lines, now);
            && (SaysCleared(more) <==> SaysCleared(log) || (lines != [] && lines[0].Cleared?))
            && (OnlyEscalates(more) <==> OnlyEscalates(log) && (lines != [] ==> lines[0].Escalated?))
  {
    var more := log + Stamp(lines, now);
    assert forall i :: 0 <= i < |log| ==> more[i] == log[i];
    if lines != [] { assert more[|log|].line == lines[0]; }
  }

  /** The main result on restarts, exactly: for an alert announced before the restart whose
      condition holds throughout after it, a "cleared" is sent if and only if some poll comes when
      the grace is over and the alert is not back: its hold, counted from the first poll, is not
      over, or a transition suppresses it. Without one it stays open, and nothing but an escalation
      is said of it. */
  lemma {:induction false} FalseClearIff(g: Config, k: Settings, key: string, e: Entry, t0: real, polls: seq<Poll>)
    requires Clocked(polls) && g.transitionTail >= 0.0 && HoldsThroughout(g, polls, key) && e.open.Some?
    ensures var (after, log) := AfterRestart(g, k, key, e, t0, polls);
            && (SaysCleared(log) <==> SomeAwayPoll(g, k, key, t0, polls))
            && (!SomeAwayPoll(g, k, key, t0, polls) ==> after.open.Some? && OnlyEscalates(log))
    decreases |polls|
  {
    hide SaysCleared, OnlyEscalates, SomeAwayPoll, HoldsThroughout, Current, Output, Stamp;
    if polls == [] {
      NothingYet(g, k, key, t0);
    } else {
      var front, n := polls[..|polls| - 1], |polls| - 1;
      HoldsThroughoutPrefix(g, polls, key, n);
      FalseClearIff(g, k, key, e, t0, front);
      BackAfterHold(g, polls, key);
      AwayOrBefore(g, k, key, t0, polls);
      var (before, log) := AfterRestart(g, k, key, e, t0, front);
      var cur := Lookup(Current(Output(g, polls)), key);
      var lines := KeyStep(k.cooldown, key, before, cur, polls[n].now - t0 >= k.grace, polls[n].now).1;
      LogGrows(log, lines, polls[n].now);
    }
  }

  lemma NothingYet(g: Config, k: Settings, key: string, t0: real)
    ensures !SaysCleared([]) && OnlyEscalates([]) && !SomeAwayPoll(g, k, key, t0, [])
  {
  }

  /** As configured: the grace is the longest hold plus three poll intervals, so a restart whose
      first poll comes within three intervals never calls such an alert cleared, unless a transition
      still holds it back after the grace. */
  lemma RestartNeverFalselyClears(g: Config, k: Settings, key: string, e: Entry, t0: real, polls: seq<Poll>,
                                  maxHold: real, interval: real)
    requires Clocked(polls) && g.transitionTail >= 0.0 && HoldsThroughout(g, polls, key) && e.open.Some?
    requires maxHold >= 0.0 && (forall x :: x in g.hold ==> g.hold[x] <= maxHold)
    requires k.grace == maxHold + 3.0 * interval
    requires polls != [] ==> polls[0].now <= t0 + 3.0 * interval
    requires forall i :: 0 <= i < |polls| && polls[i].now - t0 >= k.grace ==> !Suppressed(g, polls, key, i)
    ensures var (after, log) := AfterRestart(g, k, key, e, t0, polls);
            after.open.Some? && OnlyEscalates(log)
  {
    FalseClearIff(g, k, key, e, t0, polls);
    assert g.HoldOf(key) <= maxHold;
    forall i | 0 <= i < |polls| ensures !AwayPoll(g, k, key, t0, polls, i) {}
  }

  /** A restart while a model loads, as configured: the server has been unreachable and announced,
      and a poll two seconds after the start and another after thirty find it so, and the load still
      under way. */
  const LOADING := Config(map["llama" := 20.0, "ct" := 25.0], {"llama"}, 300.0, 20.0, {}, [])
  const GRACE := Settings(1800.0, 25.0 + 3.0 * 2.0)
  const DOWN := Alert("llama", Critical, "Inference server unreachable", "")
  const LOAD_POLLS: seq<Poll> := [Poll(Some("loading"), [DOWN], 2.0), Poll(Some("loading"), [DOWN], 32.0)]

  lemma {:induction false} LoadAtRestartFalselyClears(e: Entry)
    requires e.open.Some?
    ensures Clocked(LOAD_POLLS) && HoldsThroughout(LOADING, LOAD_POLLS, "llama")
    ensures SaysCleared(AfterRestart(LOADING, GRACE, "llama", e, 0.0, LOAD_POLLS).1)
  {
    var polls := LOAD_POLLS;
    assert InTransition(LOADING, polls, 0) && InTransition(LOADING, polls, 1);
    assert TransitionSince(LOADING, polls, 1) == 0;
    assert Keys([DOWN]) == {"llama"} by { assert [DOWN][0].key == "llama"; }
    assert HeldAt(polls, 0, "llama") && HeldAt(polls, 1, "llama");
    assert AwayPoll(LOADING, GRACE, "llama", 0.0, polls, 1);
    FalseClearIff(LOADING, GRACE, "llama", e, 0.0, polls);
  }
}
