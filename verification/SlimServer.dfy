/** The server's two coroutines, as code (monitor.py, _publish and broadcast_tick; api.py,
    ws_endpoint): whatever runs while they await, they take the steps of SlimProtocol and no
    others, so its results hold of them. */
module SlimServer {

  import opened Basics
  import opened SlimTicks
  import opened SlimProtocol

  /** The clients and what each holds, in an order. */
  function ItemsOf(clients: map<Id, Sigs>, order: seq<Id>): (items: seq<(Id, Sigs)>)
    requires forall id :: id in order ==> id in clients
    ensures |items| == |order| && forall i :: 0 <= i < |order| ==> items[i] == (order[i], clients[order[i]])
  {
    seq(|order|, i requires 0 <= i < |order| => (order[i], clients[order[i]]))
  }

  class Monitor {
    const k: Config
    var snapshot: Snap
    var sigs: Sigs
    var clients: map<Id, Sigs>

    /** All that has happened, here and elsewhere. */
    var trace: seq<Event>

    function World(): State
      requires Run(k, trace).Some?
      reads this
    {
      Run(k, trace).value
    }

    /** The fields are the server's part of the protocol's state. */
    ghost predicate Valid()
      reads this
    {
      && AllApart(k.paths) && Injective(k.h) && Run(k, trace).Some?
      && World().history != [] && snapshot == World().history[World().Now()]
      && sigs == World().sigs && clients == World().clients
    }

    constructor (k: Config)
      requires AllApart(k.paths) && Injective(k.h)
      ensures Valid() && this.k == k && clients == map[] && trace == []
    {
      this.k, snapshot, clients, trace := k, BOOTING, map[], [];
      sigs := SigsOf(k.paths, k.h, BOOTING);
    }

    /** Notes one step of the protocol. */
    method Take(e: Event)
      requires Run(k, trace).Some? && Enabled(k, World(), e)
      modifies this`trace
      ensures trace == old(trace) + [e] && Run(k, trace) == Some(Next(k, old(World()), e))
    {
      assert (trace + [e])[..|trace|] == trace;
      trace := trace + [e];
    }

    /** While a send is awaited, connections come, go and register, and pages handle messages. */
    method AwaitSend()
      requires Valid()
      modifies this`clients, this`trace
      ensures Valid() && old(trace) <= trace
      ensures World().history == old(World().history) && World().queue == old(World().queue)
      ensures World().sending == old(World().sending) && OnlyFails(trace, |old(trace)|, {})
    {
      hide Run, SendingTo;
      var others: seq<Event> := *;
      for i := 0 to |others|
        invariant Valid() && old(trace) <= trace
        invariant World().history == old(World().history) && World().queue == old(World().queue)
        invariant World().sending == old(World().sending) && OnlyFails(trace, |old(trace)|, {})
      {
        var e := others[i];
        if (e.Connect? || e.Greet? || e.Register? || e.Leave? || e.Handle?) && Enabled(k, World(), e) {
          OneMoreStep(trace, |old(trace)|, {}, e);
          Take(e);
          clients := World().clients;
        }
      }
    }

    /** Makes a poll the current state, and sends its tick to every client in turn; `oks` are the
        outcomes. A client that was registered stays so, unless its send fails or it leaves. */
    method Publish(snap: Snap, order: seq<Id>, oks: seq<bool>)
      requires Valid() && World().queue == [] && World().sending.None? && Sendable(k.paths, snap)
      requires forall i, j :: 0 <= i < j < |order| ==> order[i] != order[j]
      requires (forall id :: id in order <==> id in clients) && |oks| == |order|
      modifies this
      ensures Valid() && old(trace) + [Event.Publish(snap, order)] <= trace
      ensures snapshot == snap && World().history == old(World().history) + [snap]
      ensures World().queue == [] && World().sending.None?
      ensures forall id :: id in clients && id !in World().late ==>
        id in World().conns && Last(World().conns[id]) == Some(World().Now())
      ensures forall id :: id in old(clients) && id !in FailedOf(order, oks) && NeverLeaves(trace, |old(trace)|, id) ==> id in clients
    {
      hide Run, SigsOf, AllApart, Received, TickFor, Last, Registered, Undropped, OnlyFails, SendingTo;
      ghost var start := trace;
      snapshot := snap;
      sigs := SectionSigs(k.paths, k.h, snap);
      NothingFailsYet(start);
      OneMoreStep(trace, |start|, {}, Event.Publish(snap, order));
      Take(Event.Publish(snap, order));
      ghost var published := trace;
      BroadcastTick(order, oks);
      OnlyFailsOn(published, trace, |start|, {}, FailedOf(order, oks));
      ghost var failed := {} + FailedOf(order, oks);
      assert failed == FailedOf(order, oks);
      forall id | id in old(clients) && id !in FailedOf(order, oks) && NeverLeaves(trace, |start|, id) ensures id in clients {
        StaysClient(k, start, trace, id, failed);
      }
    }

    method BroadcastTick(order: seq<Id>, oks: seq<bool>)
      requires Valid() && World().sending.None? && |oks| == |order|
      requires forall id :: id in order ==> id in clients
      requires World().queue == ItemsOf(clients, order)
      modifies this`clients, this`trace
      ensures Valid() && old(trace) <= trace && World().history == old(World().history)
      ensures World().queue == [] && World().sending.None?
      ensures forall id :: id in clients && id !in World().late ==>
        id in World().conns && Last(World().conns[id]) == Some(World().Now())
      ensures OnlyFails(trace, |old(trace)|, FailedOf(order, oks))
    {
      hide Run, Last, OnlyFails;
      var items := ItemsOf(clients, order);
      NothingFailsYet(trace);
      assert FailedOf(order[..0], oks[..0]) == {};
      for i := 0 to |items|
        invariant Valid() && old(trace) <= trace && World().history == old(World().history)
        invariant World().queue == items[i..] && World().sending.None?
        invariant OnlyFails(trace, |old(trace)|, FailedOf(order[..i], oks[..i]))
      {
        ghost var before := trace;
        SendTick(items[i].0, items[i].1, oks[i]);
        OnlyFailsOn(before, trace, |old(trace)|, FailedOf(order[..i], oks[..i]), if oks[i] then {} else {order[i]});
        FailedGrows(order, oks, i);
      }
      assert order[..|order|] == order && oks[..|oks|] == oks;
      forall id | id in clients && id !in World().late
        ensures id in World().conns && Last(World().conns[id]) == Some(World().Now())
      {
        BroadcastIsRead(k, trace);
        ClientsAreRegistered(k, trace);
        BroadcastReachesEveryone(k, trace, id);
      }
    }

    /** One client's tick: against what it held when the broadcast began, sent or failed, and its
        signatures noted if it is still there. */
    method SendTick(id: Id, known: Sigs, ok: bool)
      requires Valid() && World().sending.None? && World().queue != [] && World().queue[0] == (id, known)
      modifies this`clients, this`trace
      ensures Valid() && old(trace) <= trace && World().history == old(World().history)
      ensures World().queue == old(World().queue)[1..] && World().sending.None?
      ensures trace != [] && trace[|trace| - 1] == (if ok then SendDone else SendFailed)
      ensures OnlyFails(trace, |old(trace)|, if ok then {} else {id})
      ensures id in clients ==> ok && clients[id] == sigs
    {
      hide Run, SigsOf, Kept, WithoutAll, AllApart, Received, Inv, Sendable, OnlyFails, SendingTo;
      ghost var start := trace;
      var kept := Kept(k.paths, sigs, known);
      var tick := Tick(World().Now(), WithoutAll(snapshot, kept), kept);
      NothingFailsYet(start);
      OneMoreStep(trace, |start|, {}, StartSend);
      Take(StartSend);
      WaitOn(start);
      var out: bool := *;
      if ok || out {
        Settles(k, trace);
        assert tick == TickFor(k, World(), known);
        OneMoreStep(trace, |start|, {}, Transmit);
        Take(Transmit);
        WaitOn(start);
      }
      EndSend(id, ok, start);
    }

    /** Awaits within a send that began at `start`. */
    method WaitOn(ghost start: seq<Event>)
      requires Valid() && start <= trace && OnlyFails(trace, |start|, {})
      modifies this`clients, this`trace
      ensures Valid() && old(trace) <= trace && start <= trace && OnlyFails(trace, |start|, {})
      ensures World().history == old(World().history) && World().queue == old(World().queue)
      ensures World().sending == old(World().sending)
    {
      hide Run, OnlyFails;
      ghost var before := trace;
      AwaitSend();
      OnlyFailsOn(before, trace, |start|, {}, {});
      ghost var none: set<Id> := {};
      assert none + none == none;
    }

    method EndSend(id: Id, ok: bool, ghost start: seq<Event>)
      requires Valid() && World().sending.Some? && World().sending.value.id == id && (ok ==> World().sending.value.sent)
      requires start <= trace && OnlyFails(trace, |start|, {})
      modifies this`clients, this`trace
      ensures Valid() && trace == old(trace) + [if ok then SendDone else SendFailed]
      ensures World().history == old(World().history) && World().queue == old(World().queue) && World().sending.None?
      ensures clients == if !ok then old(clients) - {id} else if id in old(clients) then old(clients)[id := sigs] else old(clients)
      ensures OnlyFails(trace, |start|, if ok then {} else {id})
    {
      hide Run, SigsOf, AllApart, Received, OnlyFails, SendingTo;
      BroadcastIsRead(k, trace);
      OneMoreStep(trace, |start|, {}, if ok then SendDone else SendFailed);
      if !ok {
        assert {} + {id} == {id};
        Take(SendFailed);
        clients := clients - {id};
      } else {
        Take(SendDone);
        if id in clients {
          clients := clients[id := sigs];
        }
      }
    }

    /** While a connection's handler awaits, anything may happen, bar its own steps. */
    method AwaitOthers(id: Id)
      requires Valid()
      modifies this
      ensures Valid() && old(trace) <= trace
      ensures (id in World().conns <==> id in old(World().conns))
      ensures id in World().conns ==> World().conns[id].phase == old(World().conns[id].phase)
    {
      hide Run;
      var others: seq<Event> := *;
      for i := 0 to |others|
        invariant Valid() && old(trace) <= trace
        invariant (id in World().conns <==> id in old(World().conns))
        invariant id in World().conns ==> World().conns[id].phase == old(World().conns[id].phase)
      {
        var e := others[i];
        if Enabled(k, World(), e) && !About(e, id) {
          ghost var before := World();
          Take(e);
          PhaseStays(k, before, e, id);
          clients, sigs := World().clients, World().sigs;
          snapshot := World().history[World().Now()];
        }
      }
    }

    /** The handler of a connection: it reads the snapshot and its signatures together, sends them,
        and only then registers the client, with those signatures. Then it waits until it leaves. */
    method WsEndpoint(id: Id)
      requires Valid() && id !in World().conns
      modifies this
      ensures Valid() && old(trace) <= trace
      ensures id !in clients && id in World().conns && World().conns[id].phase.Gone?
    {
      hide Run, SigsOf, AllApart, Received, TickFor, Sendable;
      var snap, mine := snapshot, sigs;
      var poll := World().Now();
      Take(Connect(id));
      AwaitOthers(id);
      var ok: bool := *;
      if ok {
        Greeting(id, poll, snap, mine);
        AwaitOthers(id);
      }
      Take(Leave(id));
      clients := clients - {id};
    }

    method Greeting(id: Id, poll: nat, snap: Snap, mine: Sigs)
      requires Valid() && id in World().conns && World().conns[id].phase == Opening(poll, snap, mine)
      modifies this
      ensures Valid() && old(trace) <= trace && id in World().conns && World().conns[id].phase.Open?
    {
      hide Run, SigsOf, AllApart, Received, TickFor, Sendable;
      Take(Greet(id));
      AwaitOthers(id);
      assert World().conns[id].phase == Greeted(poll, mine);
      Take(Register(id));
      clients := clients[id := mine];
    }
  }

  // ------------------------------------------------------ whose sends failed --

  /** The clients whose sends failed. */
  function FailedOf(order: seq<Id>, oks: seq<bool>): set<Id>
    requires |order| == |oks|
  {
    set i | 0 <= i < |order| && !oks[i] :: order[i]
  }

  lemma FailedGrows(order: seq<Id>, oks: seq<bool>, i: nat)
    requires |order| == |oks| && i < |order|
    ensures FailedOf(order[..i + 1], oks[..i + 1]) == FailedOf(order[..i], oks[..i]) + if oks[i] then {} else {order[i]}
  {
    forall j | 0 <= j < i && !oks[j] ensures order[j] in FailedOf(order[..i + 1], oks[..i + 1]) {
      assert order[..i + 1][j] == order[j] && oks[..i + 1][j] == oks[j];
    }
    if !oks[i] {
      assert order[..i + 1][i] == order[i] && oks[..i + 1][i] == oks[i];
    }
    forall j | 0 <= j < i && !oks[j] ensures order[j] in FailedOf(order[..i], oks[..i]) {
      assert order[..i][j] == order[j] && oks[..i][j] == oks[j];
    }
  }

  predicate NeverLeaves(trace: seq<Event>, n: nat, id: Id) {
    forall i :: n <= i < |trace| ==> trace[i] != Leave(id)
  }

  /** From step n on only sends to these clients failed. */
  predicate OnlyFails(trace: seq<Event>, n: nat, ids: set<Id>) {
    forall i :: n <= i < |trace| && trace[i].SendFailed? ==> SendingTo(trace[..i]).Some? && SendingTo(trace[..i]).value in ids
  }

  lemma NothingFailsYet(trace: seq<Event>)
    ensures OnlyFails(trace, |trace|, {})
  {
  }

  lemma OneMoreStep(trace: seq<Event>, n: nat, ids: set<Id>, e: Event)
    requires OnlyFails(trace, n, ids)
    ensures !e.SendFailed? ==> OnlyFails(trace + [e], n, ids)
    ensures e.SendFailed? && SendingTo(trace).Some? ==> OnlyFails(trace + [e], n, ids + {SendingTo(trace).value})
  {
    var more := trace + [e];
    assert more[..|trace|] == trace;
    assert forall i :: 0 <= i < |trace| ==> more[i] == trace[i] && more[..i] == trace[..i];
  }

  lemma OnlyFailsOn(before: seq<Event>, after: seq<Event>, n: nat, ids: set<Id>, more: set<Id>)
    requires before <= after && n <= |before| && OnlyFails(before, n, ids) && OnlyFails(after, |before|, more)
    ensures OnlyFails(after, n, ids + more)
  {
    assert forall i :: 0 <= i < |before| ==> before[i] == after[i] && before[..i] == after[..i];
  }

  lemma StaysClient(k: Config, before: seq<Event>, after: seq<Event>, id: Id, failed: set<Id>)
    requires before <= after && Run(k, before).Some? && Run(k, after).Some? && id in Run(k, before).value.clients
    requires OnlyFails(after, |before|, failed) && id !in failed && NeverLeaves(after, |before|, id)
    ensures id in Run(k, after).value.clients
  {
    ClientsAreRegistered(k, before);
    ClientsAreRegistered(k, after);
    assert after[..|before|] == before;
    StaysRegistered(after, |before|, id);
  }

  /** A send in progress is to a connection that exists. */
  lemma Settles(k: Config, trace: seq<Event>)
    requires AllApart(k.paths) && Injective(k.h) && Run(k, trace).Some? && Run(k, trace).value.sending.Some?
    ensures Run(k, trace).value.sending.value.id in Run(k, trace).value.conns
  {
    InvHolds(k, trace);
  }

  /** A step of the handler of this connection. */
  predicate About(e: Event, id: Id) {
    match e
    case Connect(x) => x == id
    case Greet(x) => x == id
    case Register(x) => x == id
    case Leave(x) => x == id
    case _ => false
  }

  lemma PhaseStays(k: Config, s: State, e: Event, id: Id)
    requires Enabled(k, s, e) && !About(e, id)
    ensures var t := Next(k, s, e);
            && (id in t.conns <==> id in s.conns)
            && (id in t.conns ==> t.conns[id].phase == s.conns[id].phase)
            && t.history != []
  {
  }
}
