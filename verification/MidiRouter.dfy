/**
  * midirouter_t (src/midirouter.cpp): peers, and which of them sends to which.
  *
  * The graph is first a value, with functions for what connecting, disconnecting and
  * removing do to it and to what the peers are told; the classes do the same in place.
  */
module MidiRouters {
  import opened IoBytes

  datatype Kind = ConnectedRouter | DisconnectedRouter
  datatype Event = Event(kind: Kind, other: nat)
  datatype Node = Node(sendTo: seq<nat>, events: seq<Event>)
  type Graph = map<nat, Node>

  // ----- the operations

  function Tell(g: Graph, id: nat, e: Event): Graph
    requires id in g
  {
    g[id := g[id].(events := g[id].events + [e])]
  }

  function Connect(g: Graph, from: nat, to: nat): Graph {
    if from in g && to in g then
      var h := g[from := g[from].(sendTo := g[from].sendTo + [to])];
      Tell(Tell(h, from, Event(ConnectedRouter, to)), to, Event(ConnectedRouter, from))
    else g
  }

  /** std::remove */
  function Without(s: seq<nat>, x: nat): (r: seq<nat>)
    ensures forall y :: y in r <==> y in s && y != x
  {
    if s == [] then [] else (if s[0] == x then [] else [s[0]]) + Without(s[1..], x)
  }

  function Disconnect(g: Graph, from: nat, to: nat): Graph {
    if from in g && to in g && to in g[from].sendTo then
      var h := g[from := g[from].(sendTo := Without(g[from].sendTo, to))];
      Tell(Tell(h, from, Event(DisconnectedRouter, to)), to, Event(DisconnectedRouter, from))
    else g
  }

  /**
    * What remove_peer makes of another peer. Its edge to the removed one is disconnected;
    * that of the removed one to it is, too, but only if it sends to somebody itself.
    */
  function After(g: Graph, id: nat, q: nat): Node
    requires q in g
  {
    var n := g[q];
    var lost := id in n.sendTo;
    var told := n.sendTo != [] && id in g && q in g[id].sendTo;
    Node(Without(n.sendTo, id),
         n.events + (if lost then [Event(DisconnectedRouter, id)] else [])
         + (if told then [Event(DisconnectedRouter, id)] else []))
  }

  function Remove(g: Graph, id: nat): Graph {
    map q | q in g && q != id :: After(g, id, q)
  }

  // ----- edges lead to live peers

  ghost predicate Closed(g: Graph) {
    forall p, q | p in g && q in g[p].sendTo :: q in g
  }

  lemma {:induction false} OperationsKeepClosed(g: Graph, p: nat, q: nat)
    requires Closed(g)
    ensures Closed(Connect(g, p, q)) && Closed(Disconnect(g, p, q)) && Closed(Remove(g, p))
  {}

  /** Removing twice is removing once, and removing an unknown peer does nothing. */
  lemma {:induction false} RemoveIsIdempotent(g: Graph, id: nat)
    requires Closed(g)
    ensures Remove(Remove(g, id), id) == Remove(g, id)
    ensures id !in g ==> Remove(g, id) == g
  {
    var h := Remove(g, id);
    forall q | q in h
      ensures After(h, id, q) == h[q]
    {
      WithoutNone(h[q].sendTo, id);
    }
    if id !in g {
      forall q | q in g
        ensures After(g, id, q) == g[q]
      {
        WithoutNone(g[q].sendTo, id);
      }
    }
  }

  lemma {:induction false} WithoutNone(s: seq<nat>, x: nat)
    requires x !in s
    ensures Without(s, x) == s
  {
    if s != [] {
      WithoutNone(s[1..], x);
      assert s[1..] == Without(s[1..], x);
    }
  }

  // ----- what the peers were told against how they are connected

  function Net(events: seq<Event>): int {
    if events == [] then 0
    else
      var n := |events| - 1;
      Net(events[..n]) + if events[n].kind.ConnectedRouter? then 1 else -1
  }

  lemma {:induction false} NetAppend(events: seq<Event>, e: Event)
    ensures Net(events + [e]) == Net(events) + if e.kind.ConnectedRouter? then 1 else -1
  {
    assert (events + [e])[..|events|] == events;
  }

  function Sources(g: Graph, q: nat): set<nat> {
    set p | p in g && q in g[p].sendTo
  }

  ghost predicate Distinct(s: seq<nat>) {
    forall i, j | 0 <= i < j < |s| :: s[i] != s[j]
  }

  /** No edge is there twice. */
  ghost predicate NoneDoubled(g: Graph) {
    forall p | p in g :: Distinct(g[p].sendTo)
  }

  /** Connections told less disconnections told: the edges in and out. */
  ghost predicate Balanced(g: Graph, q: nat)
    requires q in g
  {
    Net(g[q].events) == |Sources(g, q)| + |g[q].sendTo|
  }

  ghost predicate AllBalanced(g: Graph) {
    forall q | q in g :: Balanced(g, q)
  }

  ghost predicate HasEdge(g: Graph, p: nat, q: nat) {
    p in g && q in g && q in g[p].sendTo
  }

  ghost predicate Symmetric(g: Graph) {
    forall p, q | HasEdge(g, p, q) :: HasEdge(g, q, p)
  }

  ghost predicate Good(g: Graph) {
    Closed(g) && NoneDoubled(g) && AllBalanced(g)
  }

  lemma {:induction false} WithoutOne(s: seq<nat>, x: nat)
    requires Distinct(s)
    ensures Distinct(Without(s, x)) && |Without(s, x)| == |s| - if x in s then 1 else 0
  {
    if s != [] {
      WithoutOne(s[1..], x);
      var w := Without(s[1..], x);
      assert forall y | y in s[1..] :: y != s[0];
      assert forall i | 0 <= i < |w| :: w[i] in w && w[i] in s[1..];
      if s[0] == x {
        assert Without(s, x) == w;
      } else {
        assert Without(s, x) == [s[0]] + w;
        hide Without;
        assert forall i | 0 < i <= |w| :: ([s[0]] + w)[i] == w[i - 1];
      }
    }
  }

  /** A new edge. */
  lemma {:induction false} ConnectKeepsGood(g: Graph, from: nat, to: nat)
    requires Good(g) && (from in g ==> to !in g[from].sendTo)
    ensures Good(Connect(g, from, to))
  {
    var h := Connect(g, from, to);
    if from in g && to in g {
      OperationsKeepClosed(g, from, to);
      forall q | q in h
        ensures Balanced(h, q)
      {
        ConnectBalances(g, from, to, q);
      }
    }
  }

  lemma {:induction false} NetAppendTwo(events: seq<Event>, d: Event, e: Event)
    requires d.kind == e.kind
    ensures Net(events + [d] + [e]) == Net(events) + if d.kind.ConnectedRouter? then 2 else -2
  {
    NetAppend(events, d);
    NetAppend(events + [d], e);
  }

  /** Both ends are told once. */
  lemma {:induction false} ConnectTells(g: Graph, from: nat, to: nat, q: nat)
    requires from in g && to in g && q in g
    ensures var h := Connect(g, from, to);
            && q in h
            && Net(h[q].events) == Net(g[q].events) + (if q == from then 1 else 0) + (if q == to then 1 else 0)
            && h[q].sendTo == if q == from then g[q].sendTo + [to] else g[q].sendTo
  {
    var d, e := Event(ConnectedRouter, to), Event(ConnectedRouter, from);
    NetAppend(g[q].events, d);
    NetAppend(g[q].events, e);
    NetAppendTwo(g[q].events, d, e);
    hide Net;
  }

  lemma {:induction false} ConnectBalances(g: Graph, from: nat, to: nat, q: nat)
    requires from in g && to in g && to !in g[from].sendTo && q in g && Balanced(g, q)
    ensures q in Connect(g, from, to) && Balanced(Connect(g, from, to), q)
  {
    hide Connect, Net;
    ConnectTells(g, from, to, q);
    ConnectSources(g, from, to, q);
    assert q == to ==> from !in Sources(g, q);
    hide Sources;
  }

  lemma {:induction false} ConnectSources(g: Graph, from: nat, to: nat, q: nat)
    requires from in g && to in g && q in g
    ensures Sources(Connect(g, from, to), q) == if q == to then Sources(g, q) + {from} else Sources(g, q)
  {
    var h := Connect(g, from, to);
    assert h.Keys == g.Keys;
    forall p | p in g
      ensures p in h && (q in h[p].sendTo <==> q in g[p].sendTo || (p == from && q == to))
    {
      ConnectTells(g, from, to, p);
    }
    hide Connect;
  }

  lemma {:induction false} DisconnectTells(g: Graph, from: nat, to: nat, q: nat)
    requires from in g && to in g && q in g && to in g[from].sendTo
    ensures var h := Disconnect(g, from, to);
            && q in h
            && Net(h[q].events) == Net(g[q].events) - (if q == from then 1 else 0) - (if q == to then 1 else 0)
            && h[q].sendTo == if q == from then Without(g[q].sendTo, to) else g[q].sendTo
  {
    var d, e := Event(DisconnectedRouter, to), Event(DisconnectedRouter, from);
    NetAppend(g[q].events, d);
    NetAppend(g[q].events, e);
    NetAppendTwo(g[q].events, d, e);
    hide Net, Without;
  }

  lemma {:induction false} DisconnectBalances(g: Graph, from: nat, to: nat, q: nat)
    requires from in g && to in g && to in g[from].sendTo && Distinct(g[from].sendTo) && q in g && Balanced(g, q)
    ensures q in Disconnect(g, from, to) && Balanced(Disconnect(g, from, to), q)
  {
    var h := Disconnect(g, from, to);
    forall p | p in g
      ensures p in h && (q in h[p].sendTo <==> q in g[p].sendTo && !(p == from && q == to))
    {
      DisconnectTells(g, from, to, p);
    }
    assert h.Keys == g.Keys;
    DisconnectTells(g, from, to, q);
    WithoutOne(g[from].sendTo, to);
    hide Disconnect, Net, Distinct, Without;
    assert from in Sources(g, to);
    assert Sources(h, q) == if q == to then Sources(g, q) - {from} else Sources(g, q);
  }

  lemma {:induction false} DisconnectKeepsGood(g: Graph, from: nat, to: nat)
    requires Good(g)
    ensures Good(Disconnect(g, from, to))
  {
    var h := Disconnect(g, from, to);
    if from in g && to in g && to in g[from].sendTo {
      OperationsKeepClosed(g, from, to);
      WithoutOne(g[from].sendTo, to);
      forall q | q in h
        ensures Balanced(h, q)
      {
        DisconnectBalances(g, from, to, q);
      }
    }
  }

  /**
    * A peer that is left stays balanced exactly if it has been told of all it lost: if the
    * removed peer did not send to it, or if it sends to somebody itself.
    */
  lemma {:induction false} RemoveBalancesIff(g: Graph, id: nat, q: nat)
    requires id in g && q in g && q != id && Distinct(g[q].sendTo) && Balanced(g, q)
    ensures q in Remove(g, id)
    ensures Balanced(Remove(g, id), q) <==> (q in g[id].sendTo ==> g[q].sendTo != [])
  {
    var h, e := Remove(g, id), Event(DisconnectedRouter, id);
    WithoutOne(g[q].sendTo, id);
    NetAppend(g[q].events, e);
    NetAppend(g[q].events + [e], e);
    assert g[q].events + [] == g[q].events && g[q].events + [e] + [] == g[q].events + [e];
    assert Sources(h, q) == Sources(g, q) - {id};
    assert id in Sources(g, q) <==> q in g[id].sendTo;
  }

  /** The graph stays balanced exactly if everybody that the removed peer sent to sends to somebody. */
  lemma {:induction false} RemoveKeepsGoodIff(g: Graph, id: nat)
    requires Good(g) && id in g
    ensures Good(Remove(g, id)) <==> forall q | q in g[id].sendTo && q != id :: g[q].sendTo != []
  {
    var h := Remove(g, id);
    OperationsKeepClosed(g, id, id);
    forall q | q in h
      ensures Distinct(h[q].sendTo)
      ensures Balanced(h, q) <==> (q in g[id].sendTo ==> g[q].sendTo != [])
    {
      WithoutOne(g[q].sendTo, id);
      RemoveBalancesIff(g, id, q);
    }
    if Good(h) {
      forall q | q in g[id].sendTo && q != id
        ensures g[q].sendTo != []
      {
        assert q in h && Balanced(h, q);
      }
    }
  }

  /** A peer that sends to one that sends to nobody: removing it leaves that one's count wrong. */
  lemma {:induction false} RemoveCanUnbalance()
    ensures exists g: Graph, id :: Good(g) && id in g && !Good(Remove(g, id))
  {
    var empty: Graph := map[1 := Node([], []), 2 := Node([], [])];
    assert Sources(empty, 1) == {} && Sources(empty, 2) == {};
    var g := Connect(empty, 1, 2);
    ConnectKeepsGood(empty, 1, 2);
    assert g[1].sendTo == [2] && g[2].sendTo == [];
    assert 2 in g[1].sendTo;
    RemoveKeepsGoodIff(g, 1);
  }

  // ----- runs in which connections are made and undone in both directions

  datatype Op = Add(id: nat) | Join(a: nat, b: nat) | Part(a: nat, b: nat) | Drop(id: nat)

  function Step(g: Graph, op: Op): Graph {
    match op
    case Add(id) => if id in g then g else g[id := Node([], [])]
    case Join(a, b) =>
      if a == b || a !in g || b in g[a].sendTo then g else Connect(Connect(g, a, b), b, a)
    case Part(a, b) => if a == b then g else Disconnect(Disconnect(g, a, b), b, a)
    case Drop(id) => Remove(g, id)
  }

  function Run(g: Graph, ops: seq<Op>): Graph {
    if ops == [] then g else Step(Run(g, ops[..|ops| - 1]), ops[|ops| - 1])
  }

  lemma {:induction false} AddEdges(g: Graph, id: nat)
    requires Closed(g) && id !in g
    ensures forall p, q :: HasEdge(g[id := Node([], [])], p, q) <==> HasEdge(g, p, q)
  {}

  lemma {:induction false} AddKeepsGood(g: Graph, id: nat)
    requires Good(g) && Symmetric(g) && id !in g
    ensures Good(g[id := Node([], [])]) && Symmetric(g[id := Node([], [])])
  {
    var h := g[id := Node([], [])];
    AddEdges(g, id);
    forall p, q | HasEdge(h, p, q)
      ensures HasEdge(h, q, p)
    {
      assert HasEdge(g, p, q) && HasEdge(g, q, p);
    }
    assert AllBalanced(h) by {
      hide Symmetric, Distinct;
      forall q | q in h
        ensures Balanced(h, q)
      {
        assert Sources(h, q) == Sources(g, q);
        if q == id {
          assert Sources(g, q) == {};
        }
      }
    }
    hide Symmetric, AllBalanced;
  }

  lemma {:induction false} ConnectEdges(g: Graph, from: nat, to: nat)
    requires from in g && to in g
    ensures forall p, q :: HasEdge(Connect(g, from, to), p, q) <==> HasEdge(g, p, q) || (p == from && q == to)
  {}

  lemma {:induction false} DisconnectEdges(g: Graph, from: nat, to: nat)
    ensures forall p, q :: HasEdge(Disconnect(g, from, to), p, q) <==> HasEdge(g, p, q) && !(p == from && q == to)
  {}

  lemma {:induction false} JoinKeeps(g: Graph, a: nat, b: nat)
    requires Good(g) && Symmetric(g) && a != b && a in g && b !in g[a].sendTo
    ensures var h := Connect(Connect(g, a, b), b, a); Good(h) && Symmetric(h)
  {
    if b in g {
      var m := Connect(g, a, b);
      ConnectEdges(g, a, b);
      ConnectEdges(m, b, a);
      ConnectKeepsGood(g, a, b);
      assert !HasEdge(g, b, a) && !HasEdge(m, b, a);
      ConnectKeepsGood(m, b, a);
      hide Connect, Good, HasEdge;
    }
  }

  lemma {:induction false} PartKeeps(g: Graph, a: nat, b: nat)
    requires Good(g) && Symmetric(g) && a != b
    ensures var h := Disconnect(Disconnect(g, a, b), b, a); Good(h) && Symmetric(h)
  {
    var m := Disconnect(g, a, b);
    DisconnectEdges(g, a, b);
    DisconnectEdges(m, b, a);
    DisconnectKeepsGood(g, a, b);
    DisconnectKeepsGood(m, b, a);
    hide Disconnect, Good, HasEdge;
  }

  lemma {:induction false} RemoveEdges(g: Graph, id: nat)
    ensures forall p, q :: HasEdge(Remove(g, id), p, q) <==> HasEdge(g, p, q) && p != id && q != id
  {}

  lemma {:induction false} DropKeeps(g: Graph, id: nat)
    requires Good(g) && Symmetric(g)
    ensures Good(Remove(g, id)) && Symmetric(Remove(g, id))
  {
    RemoveEdges(g, id);
    hide Remove;
    if id in g {
      forall q | q in g[id].sendTo && q != id
        ensures g[q].sendTo != []
      {
        assert HasEdge(g, id, q);
      }
      hide Good, HasEdge;
      RemoveKeepsGoodIff(g, id);
    } else {
      RemoveIsIdempotent(g, id);
    }
  }

  lemma {:induction false} StepKeepsGood(g: Graph, op: Op)
    requires Good(g) && Symmetric(g)
    ensures Good(Step(g, op)) && Symmetric(Step(g, op))
  {
    hide Good, Connect, Disconnect, Remove;
    match op
    case Add(id) =>
      if id !in g {
        AddKeepsGood(g, id);
      }
    case Join(a, b) =>
      if a != b && a in g && b !in g[a].sendTo {
        JoinKeeps(g, a, b);
      }
    case Part(a, b) =>
      if a != b {
        PartKeeps(g, a, b);
      }
    case Drop(id) => DropKeeps(g, id);
  }

  /** While every edge has its reverse, every run keeps every live peer's count right. */
  lemma {:induction false} RunKeepsGood(ops: seq<Op>)
    ensures Good(Run(map[], ops)) && Symmetric(Run(map[], ops))
  {
    if ops != [] {
      var n := |ops| - 1;
      RunKeepsGood(ops[..n]);
      hide Good, Symmetric, Step;
      StepKeepsGood(Run(map[], ops[..n]), ops[n]);
    }
  }

  // ----- whom the events name

  function Worth(e: Event, o: nat): int {
    if e.other != o then 0 else if e.kind.ConnectedRouter? then 1 else -1
  }

  /** Connections to `o` told less disconnections from it told. */
  function NetOf(events: seq<Event>, o: nat): int {
    if events == [] then 0 else NetOf(events[..|events| - 1], o) + Worth(events[|events| - 1], o)
  }

  lemma {:induction false} NetOfAppend(events: seq<Event>, e: Event, o: nat)
    ensures NetOf(events + [e], o) == NetOf(events, o) + Worth(e, o)
  {
    assert (events + [e])[..|events|] == events;
  }

  /** The edges between two peers. */
  ghost function Ties(g: Graph, q: nat, o: nat): int {
    (if HasEdge(g, q, o) then 1 else 0) + if HasEdge(g, o, q) then 1 else 0
  }

  /** What each peer was told of each other one, or of one that has gone, is how they are connected. */
  ghost predicate Named(g: Graph) {
    forall q, o | q in g :: NetOf(g[q].events, o) == Ties(g, q, o)
  }

  lemma {:induction false} TellNames(g: Graph, id: nat, e: Event, q: nat, o: nat)
    requires id in g && q in g
    ensures q in Tell(g, id, e) && Tell(g, id, e)[q].sendTo == g[q].sendTo
    ensures NetOf(Tell(g, id, e)[q].events, o) == NetOf(g[q].events, o) + if q == id then Worth(e, o) else 0
  {
    NetOfAppend(g[q].events, e, o);
    hide NetOf;
  }

  lemma {:induction false} ConnectNames(g: Graph, from: nat, to: nat)
    requires Named(g) && from in g && to in g && !HasEdge(g, from, to)
    ensures Named(Connect(g, from, to))
  {
    var h := g[from := g[from].(sendTo := g[from].sendTo + [to])];
    var d, e := Event(ConnectedRouter, to), Event(ConnectedRouter, from);
    var a := Connect(g, from, to);
    ConnectEdges(g, from, to);
    forall q, o | q in a
      ensures NetOf(a[q].events, o) == Ties(a, q, o)
    {
      TellNames(h, from, d, q, o);
      TellNames(Tell(h, from, d), to, e, q, o);
      assert NetOf(h[q].events, o) == Ties(g, q, o);
      hide NetOf, Tell, HasEdge;
    }
  }

  lemma {:induction false} DisconnectNames(g: Graph, from: nat, to: nat)
    requires Named(g)
    ensures Named(Disconnect(g, from, to))
  {
    var a := Disconnect(g, from, to);
    DisconnectEdges(g, from, to);
    if HasEdge(g, from, to) {
      var h := g[from := g[from].(sendTo := Without(g[from].sendTo, to))];
      var d, e := Event(DisconnectedRouter, to), Event(DisconnectedRouter, from);
      forall q, o | q in a
        ensures NetOf(a[q].events, o) == Ties(a, q, o)
      {
        TellNames(h, from, d, q, o);
        TellNames(Tell(h, from, d), to, e, q, o);
        assert NetOf(h[q].events, o) == Ties(g, q, o);
        hide NetOf, Tell, HasEdge, Without;
      }
    }
  }

  /** After a removal this holds if and only if everybody that the removed peer sent to sends to somebody. */
  lemma {:induction false} RemoveNamesIff(g: Graph, id: nat)
    requires Named(g) && Closed(g) && id in g
    ensures Named(Remove(g, id)) <==> forall q | q in g[id].sendTo && q != id :: g[q].sendTo != []
  {
    var h := Remove(g, id);
    forall q, o | q in h
      ensures NetOf(h[q].events, o) == Ties(h, q, o)
              <==> o != id || !(q in g[id].sendTo && g[q].sendTo == [])
    {
      RemovedNames(g, id, q, o);
    }
    if Named(h) {
      forall q | q in g[id].sendTo && q != id
        ensures g[q].sendTo != []
      {
        assert q in h && NetOf(h[q].events, id) == Ties(h, q, id);
      }
    }
  }

  lemma {:induction false} RemovedEvents(g: Graph, id: nat, q: nat, o: nat)
    requires q in g
    ensures var e, lost := Event(DisconnectedRouter, id), id in g[q].sendTo;
            var told := g[q].sendTo != [] && id in g && q in g[id].sendTo;
            NetOf(After(g, id, q).events, o)
              == NetOf(g[q].events, o) + (if lost then Worth(e, o) else 0) + if told then Worth(e, o) else 0
  {
    hide NetOf, Without, Worth;
    var e, events := Event(DisconnectedRouter, id), g[q].events;
    NetOfAppend(events, e, o);
    NetOfAppend(events + [e], e, o);
    assert events + [] == events && events + [e] + [] == events + [e];
  }

  lemma {:induction false} RemovedTies(g: Graph, id: nat, q: nat, o: nat)
    requires q != id
    ensures Ties(Remove(g, id), q, o) == if o == id then 0 else Ties(g, q, o)
  {
    RemoveEdges(g, id);
    hide Remove, HasEdge;
  }

  lemma {:induction false} RemovedNames(g: Graph, id: nat, q: nat, o: nat)
    requires Named(g) && Closed(g) && id in g && q in g && q != id
    ensures var h := Remove(g, id);
            && q in h
            && (NetOf(h[q].events, o) == Ties(h, q, o) <==> o != id || !(q in g[id].sendTo && g[q].sendTo == []))
  {
    hide NetOf, After;
    RemovedEvents(g, id, q, o);
    RemovedTies(g, id, q, o);
    assert NetOf(g[q].events, o) == Ties(g, q, o);
    hide Named, Closed;
  }

  lemma {:induction false} StepKeepsNamed(g: Graph, op: Op)
    requires Good(g) && Symmetric(g) && Named(g)
    ensures Named(Step(g, op))
  {
    match op
    case Add(id) =>
      if id !in g {
        AddNames(g, id);
      }
    case Join(a, b) =>
      if a != b && a in g && b !in g[a].sendTo && b in g {
        var m := Connect(g, a, b);
        ConnectEdges(g, a, b);
        assert !HasEdge(g, a, b) && !HasEdge(g, b, a);
        ConnectNames(g, a, b);
        ConnectNames(m, b, a);
      }
    case Part(a, b) =>
      DisconnectNames(g, a, b);
      DisconnectNames(Disconnect(g, a, b), b, a);
    case Drop(id) =>
      if id in g {
        forall q | q in g[id].sendTo && q != id
          ensures g[q].sendTo != []
        {
          assert HasEdge(g, id, q);
        }
        RemoveNamesIff(g, id);
      } else {
        RemoveIsIdempotent(g, id);
      }
  }

  lemma {:induction false} AddNames(g: Graph, id: nat)
    requires Closed(g) && Named(g) && id !in g
    ensures Named(g[id := Node([], [])])
  {
    var h := g[id := Node([], [])];
    AddEdges(g, id);
    forall q, o | q in h
      ensures NetOf(h[q].events, o) == Ties(h, q, o)
    {
      if q != id {
        assert h[q] == g[q];
      }
    }
  }

  /** And so over every such run: every event names the peer at the other end. */
  lemma {:induction false} RunKeepsNamed(ops: seq<Op>)
    ensures Named(Run(map[], ops))
  {
    if ops != [] {
      var n := |ops| - 1;
      RunKeepsGood(ops[..n]);
      RunKeepsNamed(ops[..n]);
      hide Good, Symmetric, Step, Named;
      StepKeepsNamed(Run(map[], ops[..n]), ops[n]);
    }
  }

  // ----- the loops of remove_peer

  /** What the inner loop does for the peer `p`, once it has seen `copy`. */
  function Cut(g: Graph, id: nat, p: nat, copy: seq<nat>): Graph {
    if copy == [] then g
    else
      var n := |copy| - 1;
      var h := Cut(g, id, p, copy[..n]);
      Disconnect(if copy[n] == id then Disconnect(h, p, id) else h, id, p)
  }

  /** What is left of `p` after that. */
  function Left(g: Graph, id: nat, p: nat, copy: seq<nat>): Node
    requires p in g
  {
    var n := g[p];
    var lost, told := id in copy && id in n.sendTo, copy != [] && id in g && p in g[id].sendTo;
    Node(if id in copy then Without(n.sendTo, id) else n.sendTo,
         n.events + (if lost then [Event(DisconnectedRouter, id)] else [])
         + (if told then [Event(DisconnectedRouter, id)] else []))
  }

  /** Nothing but `p` and the peer that goes has changed, and of the latter only its edge to `p`. */
  ghost predicate OnlyCut(g: Graph, h: Graph, id: nat, p: nat) {
    && h.Keys == g.Keys
    && (forall q | q in g && q != id && q != p :: h[q] == g[q])
    && (forall q | id in g && q != p :: q in h[id].sendTo <==> q in g[id].sendTo)
  }

  lemma {:induction false} DisconnectOnlyCuts(g: Graph, id: nat, p: nat)
    ensures OnlyCut(g, Disconnect(g, id, p), id, p)
    ensures p != id ==> OnlyCut(g, Disconnect(g, p, id), id, p)
  {}

  lemma {:induction false} CutOnlyCuts(g: Graph, id: nat, p: nat, copy: seq<nat>)
    ensures OnlyCut(g, Cut(g, id, p, copy), id, p)
  {
    if copy != [] {
      var n := |copy| - 1;
      CutOnlyCuts(g, id, p, copy[..n]);
      var h := Cut(g, id, p, copy[..n]);
      var m := if copy[n] == id then Disconnect(h, p, id) else h;
      DisconnectOnlyCuts(h, id, p);
      DisconnectOnlyCuts(m, id, p);
      OnlyCutThen(g, h, m, id, p);
      OnlyCutThen(g, m, Disconnect(m, id, p), id, p);
      hide Disconnect, OnlyCut;
    }
  }

  lemma {:induction false} OnlyCutThen(g: Graph, h: Graph, k: Graph, id: nat, p: nat)
    requires OnlyCut(g, h, id, p) && (h == k || OnlyCut(h, k, id, p))
    ensures OnlyCut(g, k, id, p)
  {}

  /** The edge from the peer that goes to `p` is gone as soon as `p` has been seen to send to somebody. */
  lemma {:induction false} CutLeaves(g: Graph, id: nat, p: nat, copy: seq<nat>)
    requires Closed(g) && p in g && p != id && (forall q | q in copy :: q in g[p].sendTo)
    ensures var h := Cut(g, id, p, copy);
            && h.Keys == g.Keys && h[p] == Left(g, id, p, copy)
            && (id in g && copy != [] ==> p !in h[id].sendTo)
  {
    if copy == [] {
      assert g[p].events + [] + [] == g[p].events;
    } else {
      var n := |copy| - 1;
      assert copy == copy[..n] + [copy[n]];
      CutLeaves(g, id, p, copy[..n]);
      CutOnlyCuts(g, id, p, copy[..n]);
      CutOnce(g, Cut(g, id, p, copy[..n]), id, p, copy);
    }
  }

  lemma {:induction false} DisconnectRemoves(g: Graph, from: nat, to: nat)
    requires from in g && to in g
    ensures from in Disconnect(g, from, to) && to !in Disconnect(g, from, to)[from].sendTo
  {}

  /** One more round of the inner loop. */
  lemma {:induction false} CutOnce(g: Graph, h: Graph, id: nat, p: nat, copy: seq<nat>)
    requires Closed(g) && p in g && p != id && copy != [] && (forall q | q in copy :: q in g[p].sendTo)
    requires OnlyCut(g, h, id, p) && h[p] == Left(g, id, p, copy[..|copy| - 1])
    requires id in g && |copy| > 1 ==> p !in h[id].sendTo
    requires |copy| == 1 ==> h == g
    ensures var last := copy[|copy| - 1];
            var k := Disconnect(if last == id then Disconnect(h, p, id) else h, id, p);
            k.Keys == g.Keys && k[p] == Left(g, id, p, copy) && (id in g ==> p !in k[id].sendTo)
  {
    var m := if copy[|copy| - 1] == id then Disconnect(h, p, id) else h;
    DisconnectOnlyCuts(h, id, p);
    DisconnectOnlyCuts(m, id, p);
    CutOnceNode(g, h, id, p, copy);
    if id in g {
      DisconnectRemoves(m, id, p);
    }
    hide Disconnect, Left;
  }

  lemma {:induction false} CutOnceNode(g: Graph, h: Graph, id: nat, p: nat, copy: seq<nat>)
    requires Closed(g) && p in g && p != id && copy != [] && (forall q | q in copy :: q in g[p].sendTo)
    requires OnlyCut(g, h, id, p) && h[p] == Left(g, id, p, copy[..|copy| - 1])
    requires id in g && |copy| > 1 ==> p !in h[id].sendTo
    requires |copy| == 1 ==> h == g
    ensures var k := Disconnect(if copy[|copy| - 1] == id then Disconnect(h, p, id) else h, id, p);
            p in k && k[p] == Left(g, id, p, copy)
  {
    var n, e := |copy| - 1, Event(DisconnectedRouter, id);
    assert copy == copy[..n] + [copy[n]];
    assert g[p].events + [] == g[p].events && g[p].events + [e] + [] == g[p].events + [e];
  }

  /** What remove_peer has made of the graph when the peers in `todo` are still to be seen. */
  ghost predicate Removing(g: Graph, h: Graph, id: nat, todo: set<nat>) {
    && h.Keys == g.Keys
    && (forall q | q in g && q != id :: h[q] == if q in todo then g[q] else After(g, id, q))
    && (forall q | id in g && q in todo && q != id :: q in h[id].sendTo <==> q in g[id].sendTo)
  }

  lemma {:induction false} RemovingKeys(g: Graph, h: Graph, id: nat, todo: set<nat>)
    requires Removing(g, h, id, todo)
    ensures h.Keys == g.Keys
  {}

  lemma {:induction false} RemovingBegins(g: Graph, id: nat)
    ensures Removing(g, g, id, g.Keys)
  {}

  lemma {:induction false} RemovingStep(g: Graph, h: Graph, id: nat, todo: set<nat>, p: nat)
    requires Closed(g) && Closed(h) && Removing(g, h, id, todo) && p in todo && p in g
    ensures Removing(g, Cut(h, id, p, h[p].sendTo), id, todo - {p})
    ensures Cut(h, id, p, h[p].sendTo).Keys == g.Keys
  {
    CutOnlyCuts(h, id, p, h[p].sendTo);
    if p != id {
      CutLeaves(h, id, p, h[p].sendTo);
      LeftIsAfter(h, id, p);
    }
    hide Cut, Left;
  }

  lemma {:induction false} RemovingEnds(g: Graph, h: Graph, id: nat)
    requires Removing(g, h, id, {})
    ensures h - {id} == Remove(g, id)
  {}

  lemma {:induction false} LeftIsAfter(g: Graph, id: nat, p: nat)
    requires p in g
    ensures Left(g, id, p, g[p].sendTo) == After(g, id, p)
  {
    if id !in g[p].sendTo {
      WithoutNone(g[p].sendTo, id);
    }
  }

  lemma {:induction false} CutKeepsClosed(g: Graph, id: nat, p: nat, copy: seq<nat>)
    requires Closed(g)
    ensures Closed(Cut(g, id, p, copy))
  {
    if copy != [] {
      var n := |copy| - 1;
      CutKeepsClosed(g, id, p, copy[..n]);
      var h := Cut(g, id, p, copy[..n]);
      OperationsKeepClosed(h, p, id);
      OperationsKeepClosed(h, id, p);
      OperationsKeepClosed(Disconnect(h, p, id), id, p);
    }
  }

  // ----- the classes

  datatype Packet = Packet(from: nat, data: seq<byte>)

  /** midipeer_t; what it does with a packet is not looked into. */
  class Peer {
    var peerId: nat
    var packetsSent: nat
    var packetsRecv: nat
    var events: seq<Event>
    var received: seq<Packet>

    constructor ()
      ensures peerId == 0 && packetsSent == 0 && packetsRecv == 0 && events == [] && received == []
    {
      peerId, packetsSent, packetsRecv, events, received := 0, 0, 0, [], [];
    }
  }

  datatype PeerConnection = PeerConnection(peer: Peer, sendTo: seq<nat>)

  // ----- what a packet does to the counters

  datatype Mail = Mail(received: seq<Packet>, recv: nat, sent: nat)

  function CountSent(mails: map<nat, Mail>, from: nat): map<nat, Mail>
    requires from in mails
  {
    mails[from := mails[from].(sent := mails[from].sent + 1)]
  }

  function DeliveredOne(mails: map<nat, Mail>, to: nat, packet: Packet): map<nat, Mail> {
    if to in mails then
      mails[to := mails[to].(received := mails[to].received + [packet], recv := mails[to].recv + 1)]
    else mails
  }

  function Delivered(mails: map<nat, Mail>, to: seq<nat>, packet: Packet): map<nat, Mail> {
    if to == [] then mails
    else DeliveredOne(Delivered(mails, to[..|to| - 1], packet), to[|to| - 1], packet)
  }

  /** How often `q` is in `s`. */
  function Count(s: seq<nat>, q: nat): nat {
    if s == [] then 0
    else Count(s[..|s| - 1], q) + if s[|s| - 1] == q then 1 else 0
  }

  /** Every peer gets the packet once for each edge to it, and nobody else gets anything. */
  lemma {:induction false} DeliveredOncePerEdge(mails: map<nat, Mail>, to: seq<nat>, packet: Packet, q: nat)
    requires q in mails
    ensures var after := Delivered(mails, to, packet);
            && after.Keys == mails.Keys && after[q].sent == mails[q].sent
            && after[q].recv == mails[q].recv + Count(to, q)
            && |after[q].received| == |mails[q].received| + Count(to, q)
            && mails[q].received <= after[q].received
            && (forall i | |mails[q].received| <= i < |after[q].received| :: after[q].received[i] == packet)
  {
    if to != [] {
      DeliveredOncePerEdge(mails, to[..|to| - 1], packet, q);
    }
  }

  class Router {
    var maxId: nat
    var peers: map<nat, PeerConnection>

    ghost function Objects(): set<Peer>
      reads this
    {
      set id | id in peers :: peers[id].peer
    }

    ghost function Shape(): Graph
      reads this, Objects()
    {
      map id | id in peers :: Node(peers[id].sendTo, peers[id].peer.events)
    }

    /** Every peer knows its id. */
    ghost predicate Known()
      reads this, Objects()
    {
      0 < maxId && forall id | id in peers :: 0 < id < maxId && peers[id].peer.peerId == id
    }

    /** And every edge leads to a live peer. */
    ghost predicate Valid()
      reads this, Objects()
    {
      Known() && Closed(Shape())
    }

    constructor ()
      ensures Valid() && peers == map[] && maxId == 1
    {
      maxId, peers := 1, map[];
    }

    /** A peer that has an id keeps it, and nothing happens; also when it has been removed meanwhile. */
    method AddPeer(peer: Peer) returns (id: nat)
      requires Valid()
      modifies this, peer`peerId
      ensures Valid() && id == peer.peerId
      ensures old(peer.peerId) != 0 ==> id == old(peer.peerId) && peers == old(peers) && maxId == old(maxId)
      ensures old(peer.peerId) == 0 ==>
                && id == old(maxId) && maxId == id + 1 && id !in old(peers)
                && peers == old(peers)[id := PeerConnection(peer, [])]
                && Shape() == old(Shape())[id := Node([], peer.events)]
    {
      if peer.peerId != 0 {
        return peer.peerId;
      }
      assert peer !in Objects();
      id := maxId;
      maxId := maxId + 1;
      peer.peerId := id;
      peers := peers[id := PeerConnection(peer, [])];
      assert Shape() == old(Shape())[id := Node([], peer.events)];
    }

    method GetPeerById(id: nat) returns (peer: Peer?)
      requires Valid()
      ensures peer == if id in peers then peers[id].peer else null
      ensures peer != null ==> peer.peerId == id
    {
      peer := if id in peers then peers[id].peer else null;
    }

    /** event(): the peer is told. */
    method TellPeer(id: nat, e: Event)
      requires Known() && id in peers
      modifies Objects()`events
      ensures Known() && Shape() == Tell(old(Shape()), id, e)
    {
      peers[id].peer.events := peers[id].peer.events + [e];
      assert Shape() == Tell(old(Shape()), id, e);
    }

    method SetSendTo(id: nat, sendTo: seq<nat>)
      requires Known() && id in peers
      modifies this`peers
      ensures Known() && Objects() == old(Objects())
      ensures Shape() == old(Shape())[id := old(Shape())[id].(sendTo := sendTo)]
    {
      peers := peers[id := peers[id].(sendTo := sendTo)];
      assert forall k | k in peers :: peers[k].peer == old(peers[k].peer);
      assert Objects() == old(Objects());
      assert Shape() == old(Shape())[id := old(Shape())[id].(sendTo := sendTo)];
    }

    method ConnectPeers(from: nat, to: nat)
      requires Known()
      modifies this`peers, Objects()`events
      ensures Known() && Shape() == Connect(old(Shape()), from, to) && Objects() == old(Objects())
    {
      if from !in peers || to !in peers {
        return;
      }
      ghost var g := Shape();
      assert from in g && to in g;
      SetSendTo(from, peers[from].sendTo + [to]);
      hide Known;
      TellBoth(from, to, ConnectedRouter);
    }

    method DisconnectPeers(from: nat, to: nat)
      requires Known()
      modifies this`peers, Objects()`events
      ensures Known() && Shape() == Disconnect(old(Shape()), from, to) && Objects() == old(Objects())
    {
      if from !in peers || to !in peers {
        return;
      }
      ghost var g := Shape();
      assert from in g && to in g;
      if to in peers[from].sendTo {
        SetSendTo(from, Without(peers[from].sendTo, to));
        hide Known;
        TellBoth(from, to, DisconnectedRouter);
      }
    }

    method TellBoth(from: nat, to: nat, kind: Kind)
      requires Known() && from in Shape() && to in Shape()
      modifies Objects()`events
      ensures Known() && Shape() == Tell(Tell(old(Shape()), from, Event(kind, to)), to, Event(kind, from))
    {
      TellPeer(from, Event(kind, to));
      hide Known;
      assert Shape().Keys == old(Shape()).Keys;
      TellPeer(to, Event(kind, from));
    }

    method RemovePeer(id: nat)
      requires Valid()
      modifies this`peers, Objects()`events
      ensures Valid() && Shape() == Remove(old(Shape()), id) && Objects() <= old(Objects())
    {
      ghost var g := Shape();
      hide Known, Closed, Shape;
      CutAllTies(id);
      RemovingEnds(g, Shape(), id);
      OperationsKeepClosed(g, id, id);
      Erase(id);
    }

    /** The outer loop of remove_peer: the peers are walked in any order. */
    method CutAllTies(id: nat)
      requires Known() && Closed(Shape())
      modifies this`peers, Objects()`events
      ensures Known() && Objects() == old(Objects()) && Removing(old(Shape()), Shape(), id, {})
    {
      hide Known, Closed, Removing, Cut;
      ghost var g := Shape();
      var todo := peers.Keys;
      assert todo == g.Keys;
      RemovingBegins(g, id);
      hide Shape;
      while todo != {}
        invariant Known() && Closed(Shape()) && Objects() == old(Objects()) && todo <= g.Keys
        invariant Removing(g, Shape(), id, todo)
        decreases |todo|
      {
        var p :| p in todo;
        CutNext(p, id, g, todo);
        todo := todo - {p};
      }
    }

    method CutNext(p: nat, id: nat, ghost g: Graph, ghost todo: set<nat>)
      requires Known() && Closed(Shape()) && Closed(g) && Removing(g, Shape(), id, todo) && p in todo && p in g
      modifies this`peers, Objects()`events
      ensures Known() && Closed(Shape()) && Objects() == old(Objects()) && Removing(g, Shape(), id, todo - {p})
    {
      hide Known, Closed, Shape, Removing, Cut;
      RemovingStep(g, Shape(), id, todo, p);
      RemovingKeys(g, Shape(), id, todo);
      CutTies(p, id);
    }

    /** peers.erase(id) */
    method Erase(id: nat)
      requires Known()
      modifies this`peers
      ensures Known() && Shape() == old(Shape()) - {id} && Objects() <= old(Objects())
    {
      peers := peers - {id};
      assert Shape() == old(Shape()) - {id};
    }

    /** The inner loop of remove_peer. */
    method CutTies(p: nat, id: nat)
      requires Known() && Closed(Shape()) && p in Shape()
      modifies this`peers, Objects()`events
      ensures Known() && Closed(Shape()) && Objects() == old(Objects())
      ensures Shape() == Cut(old(Shape()), id, p, old(Shape())[p].sendTo)
    {
      CutKeepsClosed(Shape(), id, p, peers[p].sendTo);
      hide Known, Closed, Cut;
      CutEach(p, id, peers[p].sendTo);
    }

    method CutEach(p: nat, id: nat, copy: seq<nat>)
      requires Known()
      modifies this`peers, Objects()`events
      ensures Known() && Objects() == old(Objects()) && Shape() == Cut(old(Shape()), id, p, copy)
    {
      hide Known, Disconnect, Shape;
      for i := 0 to |copy|
        invariant Known() && Objects() == old(Objects())
        invariant Shape() == Cut(old(Shape()), id, p, copy[..i])
      {
        assert copy[..i + 1][..i] == copy[..i];
        if copy[i] == id {
          DisconnectPeers(p, id);
        }
        DisconnectPeers(id, p);
      }
      assert copy[..|copy|] == copy;
    }

    /** What every peer has got and sent. */
    ghost function Traffic(): map<nat, Mail>
      reads this, Objects()
    {
      map id | id in peers :: Mail(peers[id].peer.received, peers[id].peer.packetsRecv, peers[id].peer.packetsSent)
    }

    /** send_midi from one peer to all that it sends to. */
    method SendMidi(from: nat, data: seq<byte>)
      requires Valid()
      modifies Objects()`packetsSent, Objects()`packetsRecv, Objects()`received
      ensures Traffic() == if from in peers then
                             Delivered(CountSent(old(Traffic()), from), peers[from].sendTo, Packet(from, data))
                           else old(Traffic())
      ensures Shape() == old(Shape())
    {
      if from !in peers {
        return;
      }
      peers[from].peer.packetsSent := peers[from].peer.packetsSent + 1;
      assert Traffic() == CountSent(old(Traffic()), from);
      assert Known();
      DeliverAll(from, peers[from].sendTo, data);
    }

    method DeliverAll(from: nat, to: seq<nat>, data: seq<byte>)
      requires Known() && from in peers
      modifies Objects()`packetsRecv, Objects()`received
      ensures Traffic() == Delivered(old(Traffic()), to, Packet(from, data))
    {
      hide Traffic, DeliveredOne;
      for i := 0 to |to|
        invariant Traffic() == Delivered(old(Traffic()), to[..i], Packet(from, data))
      {
        assert to[..i + 1][..i] == to[..i];
        Deliver(from, to[i], data);
      }
      assert to[..|to|] == to;
    }

    /** send_midi from one peer to one other. */
    method Deliver(from: nat, to: nat, data: seq<byte>)
      requires Known() && from in peers
      modifies Objects()`packetsRecv, Objects()`received
      ensures Traffic() == DeliveredOne(old(Traffic()), to, Packet(from, data))
    {
      if to !in peers {
        return;
      }
      var peer := peers[to].peer;
      peer.packetsRecv := peer.packetsRecv + 1;
      peer.received := peer.received + [Packet(from, data)];
      assert Traffic() == DeliveredOne(old(Traffic()), to, Packet(from, data));
    }
  }
}
