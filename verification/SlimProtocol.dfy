/** Slim ticks as a protocol: the poll loop, the WebSocket handlers and the pages take turns in
    any order (monitor.py broadcast_tick, api.py ws_endpoint, data.js onmessage). */
module SlimProtocol {

  import opened Basics
  import opened SlimTicks

  type Id = nat

  datatype Msg = Init(poll: nat, snap: Snap) | Tick(poll: nat, snap: Snap, kept: seq<Path>)

  /** Where ws_endpoint stands for a connection. It reads the snapshot and its signatures
      together, sends them, and only then registers the client. */
  datatype Phase =
    | Opening(poll: nat, snap: Snap, sigs: Sigs)
    | Greeted(poll: nat, sigs: Sigs)
    | Open
    | Gone

  /** A connection: its handler, the messages on their way, and the page at its far end, with
      the poll of the last message the page handled. */
  datatype Conn = Conn(phase: Phase, inbox: seq<Msg>, snap: Snap, at: Option<nat>)

  /** A send in progress: the message may or may not be out yet. */
  datatype Sending = Sending(id: Id, known: Sigs, sent: bool)

  datatype State = State(
    history: seq<Snap>,
    sigs: Sigs,
    clients: map<Id, Sigs>,
    queue: seq<(Id, Sigs)>,
    sending: Option<Sending>,
    late: set<Id>,
    conns: map<Id, Conn>)
  {
    function Now(): nat
      requires history != []
    {
      |history| - 1
    }
  }

  datatype Event =
    | Publish(snap: Snap, order: seq<Id>)
    | StartSend
    | Transmit
    | SendDone
    | SendFailed
    | Connect(id: Id)
    | Greet(id: Id)
    | Register(id: Id)
    | Leave(id: Id)
    | Handle(id: Id)

  /** The paths served and the digest used. */
  datatype Config = Config(paths: seq<Path>, h: Digest)

  const BOOTING: Snap := map["booting" := Flag(true)]

  function Start(k: Config): State {
    State([BOOTING], SigsOf(k.paths, k.h, BOOTING), map[], [], None, {}, map[])
  }

  predicate Enabled(k: Config, s: State, e: Event) {
    && s.history != []
    && match e
       case Publish(snap, order) =>
         && s.queue == [] && s.sending.None?
         && Sendable(k.paths, snap)
         && (forall i, j :: 0 <= i < j < |order| ==> order[i] != order[j])
         && (forall id :: id in order ==> id in s.clients)
         && (forall id :: id in s.clients ==> id in order)
       case StartSend => s.queue != [] && s.sending.None?
       case Transmit => s.sending.Some? && !s.sending.value.sent && s.sending.value.id in s.conns
       case SendDone => s.sending.Some? && s.sending.value.sent
       case SendFailed => s.sending.Some?
       case Connect(id) => id !in s.conns
       case Greet(id) => id in s.conns && s.conns[id].phase.Opening?
       case Register(id) => id in s.conns && s.conns[id].phase.Greeted?
       case Leave(id) => id in s.conns && !s.conns[id].phase.Gone?
       case Handle(id) => id in s.conns && s.conns[id].inbox != []
  }

  /** The tick for a client that holds `known`: broadcast_tick with slim_snapshot. */
  function TickFor(k: Config, s: State, known: Sigs): Msg
    requires s.history != []
  {
    var kept := Kept(k.paths, s.sigs, known);
    Tick(s.Now(), WithoutAll(s.history[s.Now()], kept), kept)
  }

  /** The page's message handler. */
  function Received(prev: Snap, m: Msg): Snap {
    match m
    case Init(_, snap) => snap
    case Tick(_, snap, kept) => PutAllBack(snap, prev, kept)
  }

  function Post(c: Conn, m: Msg): Conn { c.(inbox := c.inbox + [m]) }

  function Next(k: Config, s: State, e: Event): State
    requires Enabled(k, s, e)
  {
    match e
    case Publish(snap, order) =>
      s.(history := s.history + [snap], sigs := SigsOf(k.paths, k.h, snap), late := {},
         queue := seq(|order|, i requires 0 <= i < |order| && order[i] in s.clients => (order[i], s.clients[order[i]])))
    case StartSend =>
      s.(sending := Some(Sending(s.queue[0].0, s.queue[0].1, false)), queue := s.queue[1..])
    case Transmit =>
      var to := s.sending.value;
      s.(sending := Some(to.(sent := true)),
         conns := s.conns[to.id := Post(s.conns[to.id], TickFor(k, s, to.known))])
    case SendDone =>
      var id := s.sending.value.id;
      s.(sending := None, clients := if id in s.clients then s.clients[id := s.sigs] else s.clients)
    case SendFailed =>
      s.(sending := None, clients := s.clients - {s.sending.value.id})
    case Connect(id) =>
      s.(conns := s.conns[id := Conn(Opening(s.Now(), s.history[s.Now()], s.sigs), [], map[], None)])
    case Greet(id) =>
      var c := s.conns[id];
      s.(conns := s.conns[id := Post(c.(phase := Greeted(c.phase.poll, c.phase.sigs)), Init(c.phase.poll, c.phase.snap))])
    case Register(id) =>
      var c := s.conns[id];
      s.(conns := s.conns[id := c.(phase := Open)], clients := s.clients[id := c.phase.sigs], late := s.late + {id})
    case Leave(id) =>
      s.(conns := s.conns[id := s.conns[id].(phase := Gone)], clients := s.clients - {id})
    case Handle(id) =>
      var c := s.conns[id];
      var m := c.inbox[0];
      s.(conns := s.conns[id := c.(inbox := c.inbox[1..], snap := Received(c.snap, m), at := Some(m.poll))])
  }

  /** The state after a run, or None if some step was not possible. */
  function Run(k: Config, events: seq<Event>): Option<State> {
    if events == [] then Some(Start(k))
    else
      var before := Run(k, events[..|events| - 1]);
      var e := events[|events| - 1];
      if before.None? || !Enabled(k, before.value, e) then None else Some(Next(k, before.value, e))
  }

  // --------------------------------------------------------------- invariant --

  predicate Sendable(paths: seq<Path>, snap: Snap) {
    forall p :: p in paths && Section(snap, p).Some? ==> !Section(snap, p).value.Undefined?
  }

  /** The page's snapshot when message i of the inbox comes up. */
  function Before(history: seq<Snap>, c: Conn, i: nat): Snap
    requires i < |c.inbox|
    requires forall j :: 0 <= j < |c.inbox| ==> c.inbox[j].poll < |history|
  {
    if i == 0 then c.snap else history[c.inbox[i - 1].poll]
  }

  /** Every message under way will leave the page with the full snapshot of its poll. */
  predicate Faithful(history: seq<Snap>, c: Conn) {
    && (c.at.Some? ==> c.at.value < |history| && c.snap == history[c.at.value])
    && (forall i :: 0 <= i < |c.inbox| ==> c.inbox[i].poll < |history|)
    && (forall i :: 0 <= i < |c.inbox| ==> Received(Before(history, c, i), c.inbox[i]) == history[c.inbox[i].poll])
  }

  /** The poll the page will stand at once it has handled all that is under way. */
  function Last(c: Conn): Option<nat> {
    if c.inbox != [] then Some(c.inbox[|c.inbox| - 1].poll) else c.at
  }

  predicate Knows(k: Config, history: seq<Snap>, c: Conn, known: Sigs) {
    && Last(c).Some? && Last(c).value < |history|
    && known == SigsOf(k.paths, k.h, history[Last(c).value])
  }

  predicate PhaseOk(k: Config, history: seq<Snap>, c: Conn) {
    match c.phase
    case Opening(poll, snap, sigs) =>
      && c.inbox == [] && c.at == None
      && poll < |history| && snap == history[poll] && sigs == SigsOf(k.paths, k.h, snap)
    case Greeted(poll, sigs) => Knows(k, history, c, sigs)
    case _ => true
  }

  predicate Listed(queue: seq<(Id, Sigs)>, id: Id) { exists i :: 0 <= i < |queue| && queue[i].0 == id }

  predicate InFlight(s: State, id: Id) { s.sending.Some? && s.sending.value.id == id }

  /** A client that broadcasts may address. */
  predicate Settled(s: State, id: Id) {
    id in s.conns && (s.conns[id].phase.Open? || s.conns[id].phase.Gone?)
  }

  predicate Inv(k: Config, s: State) {
    && s.history != []
    && (forall i :: 0 <= i < |s.history| ==> Sendable(k.paths, s.history[i]))
    && s.sigs == SigsOf(k.paths, k.h, s.history[s.Now()])
    && (forall id :: id in s.conns ==> Faithful(s.history, s.conns[id]) && PhaseOk(k, s.history, s.conns[id]))
    && (forall id :: id in s.clients ==> Settled(s, id))
    && (forall id :: id in s.clients && !(InFlight(s, id) && s.sending.value.sent) ==>
          Knows(k, s.history, s.conns[id], s.clients[id]))
    && QueueOk(k, s)
    && (forall id :: id in s.clients ==>
          id in s.late || Listed(s.queue, id) || InFlight(s, id) || Last(s.conns[id]) == Some(s.Now()))
  }

  predicate QueueOk(k: Config, s: State)
    requires s.history != []
  {
    && (forall i :: 0 <= i < |s.queue| ==>
          Settled(s, s.queue[i].0) && Knows(k, s.history, s.conns[s.queue[i].0], s.queue[i].1))
    && (forall i, j :: 0 <= i < j < |s.queue| ==> s.queue[i].0 != s.queue[j].0)
    && (s.sending.Some? ==>
          var to := s.sending.value;
          && Settled(s, to.id) && !Listed(s.queue, to.id)
          && if to.sent then Last(s.conns[to.id]) == Some(s.Now()) else Knows(k, s.history, s.conns[to.id], to.known))
  }

  /** A tick built against what the page will hold restores the full snapshot. */
  lemma TickRestores(k: Config, s: State, known: Sigs, prev: Snap)
    requires AllApart(k.paths) && Injective(k.h)
    requires s.history != [] && Sendable(k.paths, s.history[s.Now()])
    requires s.sigs == SigsOf(k.paths, k.h, s.history[s.Now()]) && known == SigsOf(k.paths, k.h, prev)
    ensures Received(prev, TickFor(k, s, known)) == s.history[s.Now()]
  {
    var cur := s.history[s.Now()];
    var kept := Kept(k.paths, s.sigs, known);
    KeptApart(k.paths, s.sigs, known);
    forall p | p in kept ensures Section(prev, p) == Section(cur, p) && !Section(cur, p).value.Undefined? {
      assert k.h(Section(prev, p).value) == k.h(Section(cur, p).value);
    }
    MergeRestores(cur, prev, kept);
  }

  lemma PostKeepsFaithful(history: seq<Snap>, c: Conn, m: Msg)
    requires Faithful(history, c) && m.poll < |history|
    requires m.Init? || (Last(c).Some? && Last(c).value < |history|)
    requires Received(if Last(c).Some? && Last(c).value < |history| then history[Last(c).value] else map[], m) == history[m.poll]
    ensures Faithful(history, Post(c, m)) && Last(Post(c, m)) == Some(m.poll)
  {
    var d := Post(c, m);
    forall i | 0 <= i < |d.inbox| ensures d.inbox[i].poll < |history| {}
    forall i | 0 <= i < |d.inbox| ensures Received(Before(history, d, i), d.inbox[i]) == history[d.inbox[i].poll] {
      if i < |c.inbox| {
        assert Before(history, d, i) == Before(history, c, i);
      }
    }
  }

  // ------------------------------------------------------------ preservation --

  lemma GrowthKeepsConn(k: Config, history: seq<Snap>, snap: Snap, c: Conn)
    requires Faithful(history, c) && PhaseOk(k, history, c)
    ensures Faithful(history + [snap], c) && PhaseOk(k, history + [snap], c)
    ensures forall known :: Knows(k, history, c, known) ==> Knows(k, history + [snap], c, known)
  {
    forall i | 0 <= i < |c.inbox|
      ensures Received(Before(history + [snap], c, i), c.inbox[i]) == (history + [snap])[c.inbox[i].poll]
    {
      assert Before(history + [snap], c, i) == Before(history, c, i);
    }
  }

  lemma PublishKeeps(k: Config, s: State, e: Event)
    requires Inv(k, s) && e.Publish? && Enabled(k, s, e)
    ensures Inv(k, Next(k, s, e))
  {
    var t := Next(k, s, e);
    assert t.history[..|s.history|] == s.history;
    forall id | id in s.conns
      ensures Faithful(t.history, s.conns[id]) && PhaseOk(k, t.history, s.conns[id])
      ensures forall known :: Knows(k, s.history, s.conns[id], known) ==> Knows(k, t.history, s.conns[id], known)
    {
      GrowthKeepsConn(k, s.history, e.snap, s.conns[id]);
    }
    forall id | id in t.clients ensures Listed(t.queue, id) {
      var i :| 0 <= i < |e.order| && e.order[i] == id;
      assert t.queue[i].0 == id;
    }
    hide Faithful, PhaseOk, Knows, SigsOf, Sendable;
    forall i | 0 <= i < |t.queue|
      ensures Settled(t, t.queue[i].0) && Knows(k, t.history, t.conns[t.queue[i].0], t.queue[i].1)
    {
      var id := e.order[i];
      assert id in s.clients && Knows(k, s.history, s.conns[id], s.clients[id]);
    }
    assert QueueOk(k, t);
  }

  lemma StartSendKeeps(k: Config, s: State)
    requires Inv(k, s) && Enabled(k, s, StartSend)
    ensures Inv(k, Next(k, s, StartSend))
  {
    hide SigsOf, Received, Before, Sendable, Section, AllApart, TickFor, Faithful, PhaseOk, Knows;
    var t := Next(k, s, StartSend);
    assert !Listed(t.queue, s.queue[0].0);
    forall id | Listed(s.queue, id) ensures Listed(t.queue, id) || InFlight(t, id) {
      var i :| 0 <= i < |s.queue| && s.queue[i].0 == id;
      if i > 0 { assert t.queue[i - 1].0 == id; }
    }
  }

  lemma TransmitKeeps(k: Config, s: State)
    requires AllApart(k.paths) && Injective(k.h)
    requires Inv(k, s) && Enabled(k, s, Transmit)
    ensures Inv(k, Next(k, s, Transmit))
  {
    hide Section, SigsOf, AllApart, Kept, PutAllBack, WithoutAll, Received, Faithful, Before, Sendable;
    var to := s.sending.value;
    TickRestores(k, s, to.known, s.history[Last(s.conns[to.id]).value]);
    PostKeepsFaithful(s.history, s.conns[to.id], TickFor(k, s, to.known));
    assert QueueOk(k, Next(k, s, Transmit));
  }

  lemma SendDoneKeeps(k: Config, s: State)
    requires Inv(k, s) && Enabled(k, s, SendDone)
    ensures Inv(k, Next(k, s, SendDone))
    ensures var id, t := s.sending.value.id, Next(k, s, SendDone);
            && t.clients.Keys == s.clients.Keys && s.history != []
            && forall x :: x in t.clients ==>
                 t.clients[x] == if x == id then SigsOf(k.paths, k.h, s.history[s.Now()]) else s.clients[x]
  {
    hide *;
    SignaturesNoted(k, s);
    SendDoneKeepsInv(k, s);
  }

  lemma SendDoneKeepsInv(k: Config, s: State)
    requires Inv(k, s) && Enabled(k, s, SendDone)
    ensures Inv(k, Next(k, s, SendDone))
  {
    hide Section, SigsOf, AllApart, Kept, PutAllBack, WithoutAll, Received, Faithful, Before, Sendable;
  }

  lemma SignaturesNoted(k: Config, s: State)
    requires Inv(k, s) && Enabled(k, s, SendDone)
    ensures var id, t := s.sending.value.id, Next(k, s, SendDone);
            && t.clients.Keys == s.clients.Keys && s.history != []
            && forall x :: x in t.clients ==>
                 t.clients[x] == if x == id then SigsOf(k.paths, k.h, s.history[s.Now()]) else s.clients[x]
  {
    hide Section, SigsOf, AllApart, Faithful, Before, Sendable, QueueOk;
  }

  lemma SendFailedKeeps(k: Config, s: State)
    requires Inv(k, s) && Enabled(k, s, SendFailed)
    ensures Inv(k, Next(k, s, SendFailed))
  {
    hide Section, SigsOf, AllApart, Kept, PutAllBack, WithoutAll, Received, Faithful, Before, Sendable;
  }

  lemma QueueStaysOk(k: Config, s: State, t: State)
    requires s.history != [] && QueueOk(k, s)
    requires t.history == s.history && t.queue == s.queue && t.sending == s.sending
    requires forall x :: Settled(s, x) ==> Settled(t, x) && Last(t.conns[x]) == Last(s.conns[x])
    ensures QueueOk(k, t)
  {
    hide SigsOf, Last, Section;
  }

  /** Replacing one connection by one that will end at the same poll, or making a new one. */
  lemma SameLastKeeps(k: Config, s: State, id: Id, d: Conn, clients: map<Id, Sigs>, late: set<Id>)
    requires Inv(k, s) && Faithful(s.history, d) && PhaseOk(k, s.history, d)
    requires Settled(s, id) ==> Last(d) == Last(s.conns[id])
    requires Settled(s, id) ==> d.phase.Open? || d.phase.Gone?
    requires s.late <= late
    requires forall x :: x in clients ==>
      if x == id && !Settled(s, id) then d.phase.Open? && x in late && Knows(k, s.history, d, clients[x])
      else x in s.clients && clients[x] == s.clients[x]
    ensures Inv(k, s.(conns := s.conns[id := d], clients := clients, late := late))
  {
    hide SigsOf, Faithful, PhaseOk, Sendable, Last, Section, QueueOk;
    var t := s.(conns := s.conns[id := d], clients := clients, late := late);
    assert forall x :: Settled(s, x) ==> Settled(t, x) && Last(t.conns[x]) == Last(s.conns[x]);
    QueueStaysOk(k, s, t);
  }

  lemma ConnectKeeps(k: Config, s: State, id: Id)
    requires Inv(k, s) && Enabled(k, s, Connect(id))
    ensures Inv(k, Next(k, s, Connect(id)))
  {
    hide SigsOf, Received, Before, Sendable, Section, AllApart, QueueOk, TickFor;
    SameLastKeeps(k, s, id, Conn(Opening(s.Now(), s.history[s.Now()], s.sigs), [], map[], None), s.clients, s.late);
  }

  lemma GreetKeeps(k: Config, s: State, id: Id)
    requires Inv(k, s) && Enabled(k, s, Greet(id))
    ensures Inv(k, Next(k, s, Greet(id)))
  {
    hide SigsOf, Before, Sendable, Section, AllApart, QueueOk, TickFor, PutAllBack;
    var c := s.conns[id];
    var m := Init(c.phase.poll, c.phase.snap);
    PostKeepsFaithful(s.history, c.(phase := Greeted(c.phase.poll, c.phase.sigs)), m);
    var d := Post(c.(phase := Greeted(c.phase.poll, c.phase.sigs)), m);
    SameLastKeeps(k, s, id, d, s.clients, s.late);
  }

  lemma PhaseKeepsFaithful(history: seq<Snap>, c: Conn, phase: Phase)
    requires Faithful(history, c)
    ensures Faithful(history, c.(phase := phase))
  {
    var d := c.(phase := phase);
    forall i | 0 <= i < |d.inbox| ensures Received(Before(history, d, i), d.inbox[i]) == history[d.inbox[i].poll] {
      assert Before(history, d, i) == Before(history, c, i);
    }
  }

  lemma RegisterKeeps(k: Config, s: State, id: Id)
    requires Inv(k, s) && Enabled(k, s, Register(id))
    ensures Inv(k, Next(k, s, Register(id)))
  {
    hide SigsOf, Received, Before, Sendable, Section, AllApart, QueueOk, TickFor, Faithful;
    var c := s.conns[id];
    PhaseKeepsFaithful(s.history, c, Open);
    SameLastKeeps(k, s, id, c.(phase := Open), s.clients[id := c.phase.sigs], s.late + {id});
  }

  lemma LeaveKeeps(k: Config, s: State, id: Id)
    requires Inv(k, s) && Enabled(k, s, Leave(id))
    ensures Inv(k, Next(k, s, Leave(id)))
  {
    hide SigsOf, Received, Before, Sendable, Section, AllApart, QueueOk, TickFor, Faithful;
    PhaseKeepsFaithful(s.history, s.conns[id], Gone);
    SameLastKeeps(k, s, id, s.conns[id].(phase := Gone), s.clients - {id}, s.late);
  }

  lemma HandleKeeps(k: Config, s: State, id: Id)
    requires Inv(k, s) && Enabled(k, s, Handle(id))
    ensures Inv(k, Next(k, s, Handle(id)))
  {
    hide SigsOf, Received, Faithful, Before, Sendable;
    var c := s.conns[id];
    HandleKeepsConn(k, s.history, c);
    SameLastKeeps(k, s, id, c.(inbox := c.inbox[1..], snap := Received(c.snap, c.inbox[0]), at := Some(c.inbox[0].poll)),
                  s.clients, s.late);
  }

  lemma HandleKeepsConn(k: Config, history: seq<Snap>, c: Conn)
    requires Faithful(history, c) && c.inbox != []
    ensures var d := c.(inbox := c.inbox[1..], snap := Received(c.snap, c.inbox[0]), at := Some(c.inbox[0].poll));
            Faithful(history, d) && Last(d) == Last(c)
  {
    var d := c.(inbox := c.inbox[1..], snap := Received(c.snap, c.inbox[0]), at := Some(c.inbox[0].poll));
    assert Received(Before(history, c, 0), c.inbox[0]) == history[c.inbox[0].poll];
    forall i | 0 <= i < |d.inbox| ensures d.inbox[i].poll < |history| {}
    forall i | 0 <= i < |d.inbox| ensures Received(Before(history, d, i), d.inbox[i]) == history[d.inbox[i].poll] {
      assert Before(history, d, i) == Before(history, c, i + 1);
      assert d.inbox[i] == c.inbox[i + 1];
    }
  }

  lemma {:induction false} InvHolds(k: Config, events: seq<Event>)
    requires AllApart(k.paths) && Injective(k.h) && Run(k, events).Some?
    ensures Inv(k, Run(k, events).value)
    decreases |events|
  {
    if events == [] {
      forall p | p in k.paths && Section(BOOTING, p).Some? ensures !Section(BOOTING, p).value.Undefined? {}
    } else {
      InvHolds(k, events[..|events| - 1]);
      var s, e := Run(k, events[..|events| - 1]).value, events[|events| - 1];
      match e
      case Publish(_, _) => PublishKeeps(k, s, e);
      case StartSend => StartSendKeeps(k, s);
      case Transmit => TransmitKeeps(k, s);
      case SendDone => SendDoneKeeps(k, s);
      case SendFailed => SendFailedKeeps(k, s);
      case Connect(id) => ConnectKeeps(k, s, id);
      case Greet(id) => GreetKeeps(k, s, id);
      case Register(id) => RegisterKeeps(k, s, id);
      case Leave(id) => LeaveKeeps(k, s, id);
      case Handle(id) => HandleKeeps(k, s, id);
    }
  }

  // ------------------------------------------------------------ main results --

  /** The main result: slim ticks refine full ones. In every run, each page stands exactly at the
      full snapshot of the poll it last heard about, and each message on its way will take it to
      the full snapshot of its own poll, whatever sends failed and whoever came and went. */
  lemma SlimTicksRefineFullOnes(k: Config, events: seq<Event>, id: Id)
    requires AllApart(k.paths) && Injective(k.h)
    requires Run(k, events).Some? && id in Run(k, events).value.conns
    ensures var s := Run(k, events).value;
            var c := s.conns[id];
            && (c.at.Some? ==> c.at.value < |s.history| && c.snap == s.history[c.at.value])
            && (c.inbox != [] ==>
                  c.inbox[0].poll < |s.history| && Received(c.snap, c.inbox[0]) == s.history[c.inbox[0].poll])
  {
    InvHolds(k, events);
    var s := Run(k, events).value;
    var c := s.conns[id];
    if c.inbox != [] {
      assert Received(Before(s.history, c, 0), c.inbox[0]) == s.history[c.inbox[0].poll];
    }
  }

  /** The server's note of a client is right, whatever is under way to it: it is of the snapshot the
      page will hold once it has handled its messages, and of the one it holds if there are none. Only
      between a send's going out and its noting is it of the one before. */
  lemma SignaturesDescribeThePage(k: Config, events: seq<Event>, id: Id)
    requires AllApart(k.paths) && Injective(k.h) && Run(k, events).Some?
    requires var s := Run(k, events).value;
             id in s.clients && !(InFlight(s, id) && s.sending.value.sent)
    ensures var s := Run(k, events).value;
            && id in s.conns && Last(s.conns[id]).Some? && Last(s.conns[id]).value < |s.history|
            && s.clients[id] == SigsOf(k.paths, k.h, s.history[Last(s.conns[id]).value])
            && (s.conns[id].inbox == [] ==> s.clients[id] == SigsOf(k.paths, k.h, s.conns[id].snap))
  {
    InvHolds(k, events);
  }

  /** The tick under way to a client carries exactly the sections that differ from the snapshot the
      page will hold when it comes. */
  lemma TicksCarryChangesOnly(k: Config, events: seq<Event>, p: Path)
    requires AllApart(k.paths) && Injective(k.h) && Run(k, events).Some? && p in k.paths
    requires Enabled(k, Run(k, events).value, Transmit)
    ensures var s := Run(k, events).value;
            var to := s.sending.value;
            && Last(s.conns[to.id]).Some? && Last(s.conns[to.id]).value < |s.history|
            && var cur, prev := s.history[s.Now()], s.history[Last(s.conns[to.id]).value];
               var tick := TickFor(k, s, to.known);
               var same := Section(cur, p).Some? && Section(prev, p) == Section(cur, p);
               && (p in tick.kept <==> same)
               && Section(tick.snap, p) == if same then None else Section(cur, p)
  {
    InvHolds(k, events);
    var s := Run(k, events).value;
    var to := s.sending.value;
    hide Section, SigsOf, Kept, WithoutAll, Faithful, Sendable;
    OnlyChangesTravel(k.paths, k.h, s.history[s.Now()], s.history[Last(s.conns[to.id]).value], p);
  }

  // ------------------------------------------------------- who is registered --

  /** The clients still to be sent to in the broadcast under way, read off the events. */
  function Pending(events: seq<Event>): seq<Id> {
    if events == [] then []
    else
      var before := Pending(events[..|events| - 1]);
      match events[|events| - 1]
      case Publish(_, order) => order
      case StartSend => if before == [] then [] else before[1..]
      case _ => before
  }

  /** The client a send is under way to. */
  function SendingTo(events: seq<Event>): Option<Id> {
    if events == [] then None
    else
      var front := events[..|events| - 1];
      match events[|events| - 1]
      case StartSend => if Pending(front) == [] then None else Some(Pending(front)[0])
      case SendDone => None
      case SendFailed => None
      case _ => SendingTo(front)
  }

  /** The registered clients: registering puts one in, leaving and a failed send take it out, and
      nothing else does. */
  function Registered(events: seq<Event>): set<Id> {
    if events == [] then {}
    else
      var before := Registered(events[..|events| - 1]);
      match events[|events| - 1]
      case Register(id) => before + {id}
      case Leave(id) => before - {id}
      case SendFailed => if SendingTo(events[..|events| - 1]).Some? then before - {SendingTo(events[..|events| - 1]).value} else before
      case _ => before
  }

  /** The clients registered since the last poll was published. */
  function Newcomers(events: seq<Event>): set<Id> {
    if events == [] then {}
    else
      var before := Newcomers(events[..|events| - 1]);
      match events[|events| - 1]
      case Publish(_, _) => {}
      case Register(id) => before + {id}
      case _ => before
  }

  function Ids(queue: seq<(Id, Sigs)>): seq<Id> { seq(|queue|, i requires 0 <= i < |queue| => queue[i].0) }

  lemma {:induction false} BroadcastIsRead(k: Config, events: seq<Event>)
    requires Run(k, events).Some?
    ensures var s := Run(k, events).value;
            && Ids(s.queue) == Pending(events)
            && SendingTo(events) == if s.sending.Some? then Some(s.sending.value.id) else None
    decreases |events|
  {
    hide Next, Enabled;
    if events == [] {
    } else {
      var front, e := events[..|events| - 1], events[|events| - 1];
      BroadcastIsRead(k, front);
      BroadcastStep(k, Run(k, front).value, e);
    }
  }

  lemma BroadcastStep(k: Config, s: State, e: Event)
    requires Enabled(k, s, e)
    ensures e.StartSend? ==> s.queue != []
    ensures var t := Next(k, s, e);
            && Ids(t.queue) == (match e case Publish(_, order) => order case StartSend => Ids(s.queue)[1..] case _ => Ids(s.queue))
            && (if t.sending.Some? then Some(t.sending.value.id) else None) == (match e
                 case StartSend => Some(Ids(s.queue)[0])
                 case SendDone => None
                 case SendFailed => None
                 case _ => if s.sending.Some? then Some(s.sending.value.id) else None)
  {
    hide SigsOf, TickFor, Received;
  }

  /** The table of clients holds exactly those the events leave registered. */
  lemma {:induction false} ClientsAreRegistered(k: Config, events: seq<Event>)
    requires Run(k, events).Some?
    ensures Run(k, events).value.clients.Keys == Registered(events) && Run(k, events).value.late == Newcomers(events)
    decreases |events|
  {
    hide Pending, SendingTo, Next, Enabled;
    if events == [] {
    } else {
      var front, e := events[..|events| - 1], events[|events| - 1];
      BroadcastIsRead(k, front);
      ClientsAreRegistered(k, front);
      RegistryStep(k, Run(k, front).value, e);
    }
  }

  lemma RegistryStep(k: Config, s: State, e: Event)
    requires Enabled(k, s, e)
    ensures var t := Next(k, s, e);
            && t.clients.Keys == (match e
                 case Register(id) => s.clients.Keys + {id}
                 case Leave(id) => s.clients.Keys - {id}
                 case SendFailed => s.clients.Keys - {s.sending.value.id}
                 case _ => s.clients.Keys)
            && t.late == (match e case Publish(_, _) => {} case Register(id) => s.late + {id} case _ => s.late)
    ensures e.SendFailed? ==> s.sending.Some?
  {
    hide SigsOf, TickFor, Received;
  }

  /** No registered page is left behind: once a broadcast is over, every client that was
      registered when the poll was published, and that the events leave registered, has that poll's
      tick last in line (or has handled it). */
  lemma BroadcastReachesEveryone(k: Config, events: seq<Event>, id: Id)
    requires AllApart(k.paths) && Injective(k.h) && Run(k, events).Some?
    requires Pending(events) == [] && SendingTo(events).None? && id in Registered(events) && id !in Newcomers(events)
    ensures var s := Run(k, events).value;
            id in s.clients && id in s.conns && s.history != [] && Last(s.conns[id]) == Some(s.Now())
  {
    hide Pending, SendingTo, Registered, Newcomers, Run;
    InvHolds(k, events);
    BroadcastIsRead(k, events);
    ClientsAreRegistered(k, events);
    assert |Ids(Run(k, events).value.queue)| == 0;
  }

  /** A send to the client failed at step i. */
  predicate FailsAt(events: seq<Event>, i: nat, id: Id)
    requires i < |events|
  {
    events[i].SendFailed? && SendingTo(events[..i]) == Some(id)
  }

  /** From step n on the client neither left nor had a send fail. */
  predicate Undropped(events: seq<Event>, n: nat, id: Id) {
    forall i :: n <= i < |events| ==> events[i] != Leave(id) && !FailsAt(events, i, id)
  }

  /** A client that neither leaves nor has a send fail stays registered, however many sends succeed. */
  lemma {:induction false} StaysRegistered(events: seq<Event>, n: nat, id: Id)
    requires n <= |events| && id in Registered(events[..n]) && Undropped(events, n, id)
    ensures id in Registered(events)
    decreases |events|
  {
    if n == |events| {
      assert events[..n] == events;
    } else {
      var front := events[..|events| - 1];
      assert front[..n] == events[..n];
      assert forall i :: 0 <= i < |front| ==> front[i] == events[i] && front[..i] == events[..i];
      assert !FailsAt(events, |events| - 1, id);
      StaysRegistered(front, n, id);
    }
  }

  /** Enough of a path to tell the slimmable ones apart. */
  function Mark(p: Path): int
    requires |p.key| >= 2
  {
    |p.key| * 1000000 + (if p.Sub? then |p.sub| * 100000 else 0) + p.key[0] as int * 256 + p.key[1] as int
  }

  /** The marks of SLIM_PATHS, in order: numbers are told apart at once, strings letter by letter. */
  const MARKS: seq<int> := [7827247, 7627247, 12026992, 3029541, 4024946, 6029556, 6027756, 5030062, 6026485, 5025705, 5029556, 3030825, 9026480, 14029552, 15028786, 4027745, 5029548, 6029807, 5028015]

  lemma MarkOf(i: nat)
    requires i < |SLIM_PATHS|
    ensures |MARKS| == |SLIM_PATHS| && |SLIM_PATHS[i].key| >= 2 && Mark(SLIM_PATHS[i]) == MARKS[i]
  {
  }

  lemma MarksDiffer(i: nat, j: nat)
    requires i < j < |MARKS|
    ensures MARKS[i] != MARKS[j]
  {
  }

  /** The paths the server uses meet the hypothesis of the results above. */
  lemma SlimPathsApart()
    ensures AllApart(SLIM_PATHS)
  {
    forall i, j | 0 <= i < j < |SLIM_PATHS| ensures Apart(SLIM_PATHS[i], SLIM_PATHS[j]) {
      MarkOf(i);
      MarkOf(j);
      MarksDiffer(i, j);
    }
  }
}
