/**
  * signal_t and connection_t (include/rtpmidid/signal.hpp): a signal calls the callbacks
  * that are connected to it; a connection owns one of them, can be moved, and takes it away.
  *
  * A callback is a script of what it does to the connections of its program while it is
  * being called; it may raise the signal again. How deep such calls may nest is a bound `d`
  * that everything here is proved for: past it a script raises nothing. The slots are a map
  * that is replaced by a copy whenever it changes, so a map value is all there is to a
  * shared copy; std::map is walked in the order of its keys.
  */
module Signals {
  datatype Script = Script(commands: seq<Command>)

  /** `handle`, `from` and `to` are places on the desk, where the program keeps its connections. */
  datatype Command =
    | Connect(handle: nat, callback: Script)
    | Disconnect(handle: nat)
    | Move(from: nat, to: nat)
    | Raise

  // ----- a signal and a desk of connections as one value

  datatype View = View(slots: map<nat, Script>, handles: seq<nat>, maxId: nat)

  function Disconnected(v: View, h: nat): View
    requires h < |v.handles|
  {
    v.(slots := v.slots - {v.handles[h]}, handles := v.handles[h := 0])
  }

  /** What a command does by itself; what a raise leads to is not part of it. */
  function Effect(v: View, c: Command): View {
    match c
    case Connect(h, f) =>
      if h < |v.handles| then
        var w := Disconnected(v, h);
        w.(slots := w.slots[v.maxId := f], handles := w.handles[h := v.maxId], maxId := v.maxId + 1)
      else v
    case Disconnect(h) => if h < |v.handles| then Disconnected(v, h) else v
    case Move(f, t) =>
      if f < |v.handles| && t < |v.handles| && f != t && v.handles[f] != 0 then
        var w := Disconnected(v, t);
        w.(handles := w.handles[t := v.handles[f]][f := 0])
      else v
    case Raise => v
  }

  /** Connecting: a new id, whose slot holds the callback and is owned by the handle; only its old slot is gone. */
  lemma {:induction false} ConnectingDoes(v: View, h: nat, f: Script)
    requires Owned(v) && h < |v.handles|
    ensures var a := Effect(v, Connect(h, f));
            && a.handles[h] == v.maxId && v.maxId !in v.slots && a.maxId == v.maxId + 1
            && v.maxId in a.slots && a.slots[v.maxId] == f
            && (forall id | id in v.slots :: id in a.slots <==> id != v.handles[h])
            && (forall id | id in v.slots && id in a.slots :: a.slots[id] == v.slots[id])
            && (forall id | id in a.slots :: id in v.slots || id == v.maxId)
            && (forall k | 0 <= k < |v.handles| && k != h :: a.handles[k] == v.handles[k])
  {}

  /** Disconnecting: the slot of the handle is gone, all others stay. */
  lemma {:induction false} DisconnectingDoes(v: View, h: nat)
    requires h < |v.handles|
    ensures var a := Effect(v, Disconnect(h));
            && a.handles[h] == 0 && a.slots == v.slots - {v.handles[h]} && a.maxId == v.maxId
            && (forall k | 0 <= k < |v.handles| && k != h :: a.handles[k] == v.handles[k])
  {}

  /** Moving: the target owns what the other owned, which owns nothing; only the target's own slot is gone. */
  lemma {:induction false} MovingDoes(v: View, f: nat, t: nat)
    requires f < |v.handles| && t < |v.handles| && f != t && v.handles[f] != 0
    ensures var a := Effect(v, Move(f, t));
            && a.handles[t] == v.handles[f] && a.handles[f] == 0
            && a.slots == v.slots - {v.handles[t]} && a.maxId == v.maxId
            && (forall k | 0 <= k < |v.handles| && k != f && k != t :: a.handles[k] == v.handles[k])
  {}

  function Step(v: View, c: Command, d: nat): View
    decreases d, 0, 0
  {
    if c.Raise? && d > 0 then Turn(v, |Ids(v)|, d - 1) else Effect(v, c)
  }

  function Run(v: View, commands: seq<Command>, d: nat): View
    decreases d, 1, |commands|
  {
    if commands == [] then v
    else Step(Run(v, commands[..|commands| - 1], d), commands[|commands| - 1], d)
  }

  /** The keys below `n`, in order. */
  function Keys(slots: map<nat, Script>, n: nat): (ids: seq<nat>)
    ensures forall id :: id in ids <==> id in slots && id < n
  {
    if n == 0 then []
    else if n - 1 in slots then Keys(slots, n - 1) + [n - 1]
    else Keys(slots, n - 1)
  }

  predicate Ascending(s: seq<nat>) {
    forall i, j | 0 <= i < j < |s| :: s[i] < s[j]
  }

  lemma {:induction false} AppendAscends(s: seq<nat>, n: nat)
    requires Ascending(s) && forall k | k in s :: k < n
    ensures Ascending(s + [n])
  {
    forall i, j | 0 <= i < j < |s + [n]|
      ensures (s + [n])[i] < (s + [n])[j]
    {
      assert s[i] in s;
    }
  }

  lemma {:induction false} KeysAscend(slots: map<nat, Script>, n: nat)
    ensures Ascending(Keys(slots, n))
  {
    if n > 0 {
      KeysAscend(slots, n - 1);
      AppendAscends(Keys(slots, n - 1), n - 1);
    }
  }

  function Ids(v: View): seq<nat> {
    Keys(v.slots, v.maxId)
  }

  /** What there is when the turn of the `k`-th slot comes. */
  function Turn(v: View, k: nat, d: nat): View
    requires k <= |Ids(v)|
    decreases d, 2, k
  {
    if k == 0 then v
    else
      var w, id := Turn(v, k - 1, d), Ids(v)[k - 1];
      if id in w.slots then Run(w, v.slots[id].commands, d) else w
  }

  /** The slots called before that. */
  function Called(v: View, k: nat, d: nat): seq<nat>
    requires k <= |Ids(v)|
  {
    if k == 0 then []
    else
      var id := Ids(v)[k - 1];
      Called(v, k - 1, d) + if id in Turn(v, k - 1, d).slots then [id] else []
  }

  // ----- what has been done

  /** A command that was carried out, and how deep raises could still nest when it was. */
  datatype Entry = Entry(level: nat, command: Command)

  /** All that was carried out, one after the other. */
  function Fold(v: View, log: seq<Entry>): View {
    if log == [] then v else Effect(Fold(v, log[..|log| - 1]), log[|log| - 1].command)
  }

  /** The commands of one level. */
  function AtLevel(log: seq<Entry>, d: nat): seq<Command> {
    if log == [] then []
    else
      var e := log[|log| - 1];
      AtLevel(log[..|log| - 1], d) + if e.level == d then [e.command] else []
  }

  predicate UpTo(log: seq<Entry>, d: int) {
    forall e | e in log :: e.level <= d
  }

  /** The scripts of these slots, one after the other. */
  function ScriptsOf(slots: map<nat, Script>, ids: seq<nat>): seq<Command>
    requires forall id | id in ids :: id in slots
  {
    if ids == [] then [] else ScriptsOf(slots, ids[..|ids| - 1]) + slots[ids[|ids| - 1]].commands
  }

  lemma {:induction false} FoldAppend(v: View, a: seq<Entry>, b: seq<Entry>)
    ensures Fold(v, a + b) == Fold(Fold(v, a), b)
  {
    if b == [] {
      assert a + b == a;
    } else {
      FoldAppend(v, a, b[..|b| - 1]);
      assert (a + b)[..|a + b| - 1] == a + b[..|b| - 1];
    }
  }

  lemma {:induction false} AtLevelAppend(a: seq<Entry>, b: seq<Entry>, d: nat)
    ensures AtLevel(a + b, d) == AtLevel(a, d) + AtLevel(b, d)
  {
    if b == [] {
      assert a + b == a && AtLevel(a, d) + [] == AtLevel(a, d);
    } else {
      AtLevelAppend(a, b[..|b| - 1], d);
      assert (a + b)[..|a + b| - 1] == a + b[..|b| - 1];
    }
  }

  lemma {:induction false} NoneAbove(log: seq<Entry>, d: nat)
    requires UpTo(log, d - 1)
    ensures AtLevel(log, d) == []
  {
    if log != [] {
      assert log[|log| - 1] in log;
      NoneAbove(log[..|log| - 1], d);
    }
  }

  lemma {:induction false} OneEntry(v: View, d: nat, c: Command)
    ensures Fold(v, [Entry(d, c)]) == Effect(v, c)
    ensures forall k: nat :: AtLevel([Entry(d, c)], k) == if k == d then [c] else []
  {
    assert [Entry(d, c)][..0] == [];
  }

  /**
    * What a call adds to the log: at its own level just these commands, at others only what
    * they raise, and all together leads from `v` to `w`.
    */
  ghost predicate Logged(more: seq<Entry>, d: nat, commands: seq<Command>, v: View, w: View) {
    UpTo(more, d) && AtLevel(more, d) == commands && w == Fold(v, more)
  }

  lemma {:induction false} LoggedThen(
    a: seq<Entry>, b: seq<Entry>, d: nat, first: seq<Command>, second: seq<Command>, v: View, m: View, w: View)
    requires Logged(a, d, first, v, m) && Logged(b, d, second, m, w)
    ensures Logged(a + b, d, first + second, v, w)
  {
    FoldAppend(v, a, b);
    AtLevelAppend(a, b, d);
  }

  lemma {:induction false} LoggedNothing(d: nat, v: View)
    ensures Logged([], d, [], v, v)
  {}

  // ----- every slot has one owner

  /** Every live slot is owned by one connection on the desk, and by one only. */
  ghost predicate Owned(v: View) {
    && (forall id | id in v.slots :: 0 < id < v.maxId && id in v.handles)
    && (forall h | 0 <= h < |v.handles| && v.handles[h] != 0 :: v.handles[h] in v.slots)
    && (forall h, k | 0 <= h < k < |v.handles| && v.handles[h] != 0 :: v.handles[h] != v.handles[k])
  }

  lemma {:induction false} DisconnectKeepsOwners(v: View, h: nat)
    requires Owned(v) && h < |v.handles|
    ensures Owned(Disconnected(v, h)) && v.handles[h] !in Disconnected(v, h).slots
  {
    var w := Disconnected(v, h);
    forall id | id in w.slots
      ensures id in w.handles
    {
      var k :| 0 <= k < |v.handles| && v.handles[k] == id;
      assert w.handles[k] == id;
    }
  }

  lemma {:induction false} ConnectKeepsOwners(v: View, h: nat, f: Script, d: nat)
    requires Owned(v) && v.maxId > 0 && h < |v.handles|
    ensures Owned(Step(v, Connect(h, f), d))
  {
    DisconnectKeepsOwners(v, h);
    var w := Disconnected(v, h);
    TakeKeepsOwners(w, h, f);
  }

  /** A connection without a slot gets a new one. */
  lemma {:induction false} TakeKeepsOwners(w: View, h: nat, f: Script)
    requires Owned(w) && w.maxId > 0 && h < |w.handles| && w.handles[h] == 0
    ensures Owned(w.(slots := w.slots[w.maxId := f], handles := w.handles[h := w.maxId], maxId := w.maxId + 1))
  {
    var hs := w.handles[h := w.maxId];
    assert hs[h] == w.maxId;
    forall id | id in w.slots
      ensures id in hs
    {
      var k :| 0 <= k < |w.handles| && w.handles[k] == id;
      assert hs[k] == id;
    }
  }

  lemma {:induction false} MoveKeepsOwners(w: View, f: nat, t: nat)
    requires Owned(w) && f < |w.handles| && t < |w.handles| && f != t && w.handles[t] == 0 && w.handles[f] != 0
    ensures Owned(w.(handles := w.handles[t := w.handles[f]][f := 0]))
  {
    var hs := w.handles[t := w.handles[f]][f := 0];
    assert hs[t] == w.handles[f];
    forall id | id in w.slots
      ensures id in hs
    {
      var k :| 0 <= k < |w.handles| && w.handles[k] == id;
      assert k != f ==> hs[k] == id;
    }
  }

  lemma {:induction false} StepKeepsOwners(v: View, c: Command, d: nat)
    requires Owned(v) && v.maxId > 0
    ensures Owned(Step(v, c, d)) && Step(v, c, d).maxId > 0
    decreases d, 0, 0
  {
    match c
    case Disconnect(h) =>
      if h < |v.handles| {
        DisconnectKeepsOwners(v, h);
      }
    case Connect(h, f) =>
      if h < |v.handles| {
        ConnectKeepsOwners(v, h, f, d);
      }
    case Move(f, t) =>
      if f < |v.handles| && t < |v.handles| && f != t && v.handles[f] != 0 {
        DisconnectKeepsOwners(v, t);
        hide Owned;
        MoveKeepsOwners(Disconnected(v, t), f, t);
      }
    case Raise =>
      if d > 0 {
        DispatchKeepsOwners(v, |Ids(v)|, d - 1);
      }
  }

  lemma {:induction false} RunKeepsOwners(v: View, commands: seq<Command>, d: nat)
    requires Owned(v) && v.maxId > 0
    ensures Owned(Run(v, commands, d)) && Run(v, commands, d).maxId > 0
    decreases d, 1, |commands|
  {
    if commands != [] {
      RunKeepsOwners(v, commands[..|commands| - 1], d);
      StepKeepsOwners(Run(v, commands[..|commands| - 1], d), commands[|commands| - 1], d);
    }
  }

  lemma {:induction false} DispatchKeepsOwners(v: View, k: nat, d: nat)
    requires Owned(v) && v.maxId > 0 && k <= |Ids(v)|
    ensures Owned(Turn(v, k, d)) && Turn(v, k, d).maxId > 0
    decreases d, 2, k
  {
    if k > 0 {
      DispatchKeepsOwners(v, k - 1, d);
      RunKeepsOwners(Turn(v, k - 1, d), v.slots[Ids(v)[k - 1]].commands, d);
    }
  }

  // ----- who is called

  /** A slot that has gone does not come back: ids are not used again. */
  lemma {:induction false} GoneInStep(v: View, c: Command, id: nat, d: nat)
    requires id !in v.slots && id < v.maxId
    ensures id !in Step(v, c, d).slots && id < Step(v, c, d).maxId
    decreases d, 0, 0
  {
    if c.Raise? && d > 0 {
      GoneInDispatch(v, |Ids(v)|, id, d - 1);
    }
  }

  lemma {:induction false} GoneInRun(v: View, commands: seq<Command>, id: nat, d: nat)
    requires id !in v.slots && id < v.maxId
    ensures id !in Run(v, commands, d).slots && id < Run(v, commands, d).maxId
    decreases d, 1, |commands|
  {
    if commands != [] {
      GoneInRun(v, commands[..|commands| - 1], id, d);
      GoneInStep(Run(v, commands[..|commands| - 1], d), commands[|commands| - 1], id, d);
    }
  }

  lemma {:induction false} GoneInDispatch(v: View, k: nat, id: nat, d: nat)
    requires k <= |Ids(v)| && id !in v.slots && id < v.maxId
    ensures id !in Turn(v, k, d).slots && id < Turn(v, k, d).maxId
    decreases d, 2, k
  {
    if k > 0 {
      GoneInDispatch(v, k - 1, id, d);
      GoneInRun(Turn(v, k - 1, d), v.slots[Ids(v)[k - 1]].commands, id, d);
    }
  }

  lemma {:induction false} GoneStaysGone(v: View, j: nat, k: nat, id: nat, d: nat)
    requires j <= k <= |Ids(v)| && id !in Turn(v, j, d).slots && id < Turn(v, j, d).maxId
    ensures id !in Turn(v, k, d).slots && id < Turn(v, k, d).maxId
    decreases k - j
  {
    if j < k {
      GoneStaysGone(v, j, k - 1, id, d);
      var at := Ids(v)[k - 1];
      if at in Turn(v, k - 1, d).slots {
        GoneInRun(Turn(v, k - 1, d), v.slots[at].commands, id, d);
      }
    }
  }

  lemma {:induction false} IdsAscend(v: View, i: nat, j: nat)
    requires i < j < |Ids(v)|
    ensures Ids(v)[i] < Ids(v)[j]
  {
    KeysAscend(v.slots, v.maxId);
  }

  /** Slots are called in the order of their ids, each once, and only such as were there at the start. */
  lemma {:induction false} CalledInOrder(v: View, k: nat, d: nat)
    requires k <= |Ids(v)|
    ensures Ascending(Called(v, k, d))
    ensures forall id | id in Called(v, k, d) :: id in v.slots && (k < |Ids(v)| ==> id < Ids(v)[k])
  {
    if k > 0 {
      CalledInOrder(v, k - 1, d);
      assert Ids(v)[k - 1] in Ids(v);
      if k < |Ids(v)| {
        IdsAscend(v, k - 1, k);
      }
      hide Turn, Ids;
      AppendAscends(Called(v, k - 1, d), Ids(v)[k - 1]);
    }
  }

  /**
    * Dispatch calls, in the order of their ids and each once, exactly the slots that were
    * there when it began and are still connected at their turn; none that came later.
    */
  lemma {:induction false} CalledExactly(v: View, k: nat, d: nat)
    requires k <= |Ids(v)|
    ensures forall i | 0 <= i < k :: Ids(v)[i] in Called(v, k, d) <==> Ids(v)[i] in Turn(v, i, d).slots
  {
    hide Turn, Ids;
    if k > 0 {
      CalledInOrder(v, k - 1, d);
      CalledExactly(v, k - 1, d);
      var ids, before := Ids(v), Called(v, k - 1, d);
      assert ids[k - 1] !in before;
      forall i | 0 <= i < k
        ensures ids[i] in Called(v, k, d) <==> ids[i] in Turn(v, i, d).slots
      {
        if i < k - 1 {
          IdsAscend(v, i, k - 1);
        }
      }
    }
  }

  /** A slot that a callback took away before its turn is not called. */
  lemma {:induction false} TakenAwayIsNotCalled(v: View, j: nat, k: nat, d: nat)
    requires j <= k < |Ids(v)| && Ids(v)[k] !in Turn(v, j, d).slots
    ensures Ids(v)[k] !in Called(v, |Ids(v)|, d)
  {
    var id := Ids(v)[k];
    assert id in Ids(v);
    IdsGrow(v, j, d);
    GoneStaysGone(v, j, k, id, d);
    CalledExactly(v, |Ids(v)|, d);
  }

  lemma {:induction false} StepGrows(v: View, c: Command, d: nat)
    ensures v.maxId <= Step(v, c, d).maxId
    decreases d, 0, 0
  {
    if c.Raise? && d > 0 {
      IdsGrow(v, |Ids(v)|, d - 1);
    }
  }

  lemma {:induction false} RunGrows(v: View, commands: seq<Command>, d: nat)
    ensures v.maxId <= Run(v, commands, d).maxId
    decreases d, 1, |commands|
  {
    if commands != [] {
      RunGrows(v, commands[..|commands| - 1], d);
      StepGrows(Run(v, commands[..|commands| - 1], d), commands[|commands| - 1], d);
    }
  }

  lemma {:induction false} IdsGrow(v: View, k: nat, d: nat)
    requires k <= |Ids(v)|
    ensures v.maxId <= Turn(v, k, d).maxId
    decreases d, 2, k
  {
    if k > 0 {
      IdsGrow(v, k - 1, d);
      RunGrows(Turn(v, k - 1, d), v.slots[Ids(v)[k - 1]].commands, d);
    }
  }

  /** The scripts of the slots that are called before the turn of the `k`-th. */
  function AllScripts(v: View, k: nat, d: nat): seq<Command>
    requires k <= |Ids(v)|
  {
    CalledInOrder(v, k, d);
    ScriptsOf(v.slots, Called(v, k, d))
  }

  lemma {:induction false} OneMoreCalled(v: View, k: nat, d: nat, calls: bool)
    requires k < |Ids(v)| && Called(v, k + 1, d) == Called(v, k, d) + if calls then [Ids(v)[k]] else []
    ensures Ids(v)[k] in v.slots
    ensures AllScripts(v, k + 1, d) == AllScripts(v, k, d) + if calls then v.slots[Ids(v)[k]].commands else []
  {
    assert Ids(v)[k] in Ids(v);
    CalledInOrder(v, k, d);
    CalledInOrder(v, k + 1, d);
    var before := Called(v, k, d);
    if calls {
      assert (before + [Ids(v)[k]])[..|before|] == before;
    } else {
      assert before + [] == before && ScriptsOf(v.slots, before) + [] == ScriptsOf(v.slots, before);
    }
    hide Called, Turn, Ids;
  }

  lemma {:induction false} DispatchBegins(v: View, d: nat)
    ensures Ids(v) == Keys(v.slots, v.maxId) && Called(v, 0, d) == [] && Turn(v, 0, d) == v
    ensures Logged([], d, AllScripts(v, 0, d), v, v)
  {}

  lemma {:induction false} TurnLogged(
    more: seq<Entry>, one: seq<Entry>, v: View, k: nat, d: nat, calls: bool)
    requires k < |Ids(v)| && Called(v, k + 1, d) == Called(v, k, d) + if calls then [Ids(v)[k]] else []
    requires Ids(v)[k] in v.slots && Logged(more, d, AllScripts(v, k, d), v, Turn(v, k, d))
    requires Logged(one, d, if calls then v.slots[Ids(v)[k]].commands else [], Turn(v, k, d), Turn(v, k + 1, d))
    ensures Logged(more + one, d, AllScripts(v, k + 1, d), v, Turn(v, k + 1, d))
  {
    hide Logged, Turn, Called, Ids, AllScripts;
    OneMoreCalled(v, k, d, calls);
    LoggedThen(more, one, d, AllScripts(v, k, d), if calls then v.slots[Ids(v)[k]].commands else [],
               v, Turn(v, k, d), Turn(v, k + 1, d));
  }

  lemma {:induction false} OneLogged(v: View, d: nat, c: Command)
    ensures Logged([Entry(d, c)], d, [c], v, Effect(v, c))
  {
    OneEntry(v, d, c);
  }

  /** A raise and what it led to. */
  lemma {:induction false} NestedLogged(
    one: seq<Entry>, nested: seq<Entry>, d: nat, v: View, w: View, commands: seq<Command>)
    requires d > 0 && one == [Entry(d, Raise)] && Logged(nested, d - 1, commands, v, w)
    ensures Logged(one + nested, d, [Raise], v, w) && AtLevel(one + nested, d - 1) == commands
  {
    hide Fold, AtLevel, Disconnected;
    OneEntry(v, d, Raise);
    FoldAppend(v, one, nested);
    AtLevelAppend(one, nested, d);
    AtLevelAppend(one, nested, d - 1);
    NoneAbove(nested, d);
  }

  // ----- the classes

  class Connection {
    var signal: Signal?
    var id: nat

    constructor ()
      ensures signal == null && id == 0
    {
      signal, id := null, 0;
    }

    /** The connection to a slot that nobody owns yet. */
    constructor To(s: Signal, slot: nat)
      requires slot in s.connections
      modifies s
      ensures signal == s && id == slot
      ensures s.connections == old(s.connections)[slot := this]
      ensures unchanged(s`slots, s`maxId, s`owners, s`log)
    {
      signal, id := s, slot;
      new;
      s.ReplaceConnectionPtr(slot, this);
    }

    method Disconnect(ghost s: Signal)
      requires s.Valid() && this in s.owners
      modifies this, s
      ensures s.Valid() && s.owners == old(s.owners) && s.maxId == old(s.maxId) && s.log == old(s.log)
      ensures signal == null && id == 0
      ensures s.slots == old(s.slots) - {old(id)} && s.connections == old(s.connections) - {old(id)}
    {
      if id != 0 && signal != null {
        signal.DisconnectSlot(id);
      }
      signal, id := null, 0;
    }

    /** operator=(connection_t &&): gives up its own slot and takes that of `other`. */
    method MoveFrom(other: Connection, ghost s: Signal)
      requires s.Valid() && this in s.owners && other in s.owners
      requires other != this && other.signal != null
      modifies this, other, s
      ensures s.Valid() && s.owners == old(s.owners) && s.maxId == old(s.maxId) && s.log == old(s.log)
      ensures id == old(other.id) && other.id == 0 && signal == s && other.signal == null
      ensures s.slots == old(s.slots) - {old(id)}
    {
      Disconnect(s);
      Adopt(other, s);
    }

    /** The second half of operator=: the slot of `other` is ours now. */
    method Adopt(other: Connection, ghost s: Signal)
      requires s.Valid() && this in s.owners && other in s.owners
      requires signal == null && other != this && other.signal != null
      modifies this, other, s`connections
      ensures s.Valid()
      ensures id == old(other.id) && other.id == 0 && signal == s && other.signal == null
    {
      signal, id := other.signal, other.id;
      assert signal == s && id in s.connections && s.connections[id] == other;
      other.signal.ReplaceConnectionPtr(id, this);
      other.signal, other.id := null, 0;
    }
  }

  class Signal {
    var maxId: nat
    var slots: map<nat, Script>
    var connections: map<nat, Connection?>
    /** The connections that may own a slot here. */
    ghost var owners: set<Connection>
    /** What callbacks have done so far. */
    ghost var log: seq<Entry>

    /** Every slot has one owner, which knows it, and which the signal knows. */
    ghost predicate Valid()
      reads this, owners
    {
      && maxId > 0 && slots.Keys == connections.Keys
      && (forall id | id in connections ::
            && 0 < id < maxId && connections[id] != null && connections[id] in owners
            && connections[id].id == id)
      && (forall c | c in owners ::
            if c.signal == null then c.id == 0
            else c.signal == this && c.id in connections && connections[c.id] == c)
    }

    constructor ()
      ensures Valid() && slots == map[] && maxId == 1 && owners == {} && log == []
    {
      maxId, slots, connections, owners, log := 1, map[], map[], {}, [];
    }

    method ConnectCallback(f: Script) returns (c: Connection)
      requires Valid()
      modifies this
      ensures Valid() && fresh(c) && owners == old(owners) + {c}
      ensures c.id == old(maxId) && c.signal == this && maxId == old(maxId) + 1
      ensures slots == old(slots)[old(maxId) := f] && log == old(log)
    {
      var cid := maxId;
      maxId := maxId + 1;
      slots := slots[cid := f];
      connections := connections[cid := null];
      c := new Connection.To(this, cid);
      owners := owners + {c};
    }

    /** disconnect(int) */
    method DisconnectSlot(id: nat)
      modifies this
      ensures slots == old(slots) - {id} && connections == old(connections) - {id}
      ensures unchanged(`maxId, `owners, `log)
    {
      slots := slots - {id};
      connections := connections - {id};
    }

    method ReplaceConnectionPtr(id: nat, c: Connection)
      modifies this`connections
      ensures connections == if id in old(connections) then old(connections)[id := c] else old(connections)
    {
      if id in connections {
        connections := connections[id := c];
      }
    }

    /** disconnect_all: comes to an end, and leaves nothing. */
    method DisconnectAll()
      requires Valid()
      modifies this, owners
      ensures Valid() && slots == map[] && connections == map[] && owners == old(owners) && maxId == old(maxId)
      ensures forall c | c in owners :: c.signal == null && c.id == 0
    {
      while connections.Keys != {}
        invariant Valid() && owners == old(owners) && maxId == old(maxId)
        decreases |connections.Keys|
      {
        var id := First();
        var was := connections.Keys;
        connections[id].Disconnect(this);
        assert connections.Keys == was - {id};
      }
    }

    /** connections.begin() */
    method First() returns (id: nat)
      requires connections.Keys != {}
      ensures id in connections && forall k | k in connections :: id <= k
    {
      id := 0;
      ghost var some :| some in connections.Keys;
      while id !in connections
        invariant forall k | k in connections :: id <= k
        decreases some - id
      {
        id := id + 1;
      }
    }

    /** The desk and the signal are as `v` says. */
    ghost predicate Shows(v: View, desk: seq<Connection>)
      reads this, desk
    {
      && slots == v.slots && maxId == v.maxId && |desk| == |v.handles|
      && forall i | 0 <= i < |desk| :: desk[i].id == v.handles[i]
    }

    ghost predicate Desk(desk: seq<Connection>)
      reads this
    {
      (forall c | c in desk :: c in owners) && (forall i, j | 0 <= i < j < |desk| :: desk[i] != desk[j])
    }

    /** desk[h] = signal.connect(f) */
    method ConnectAt(h: nat, f: Script, desk: seq<Connection>, ghost v: View)
      requires Valid() && Desk(desk) && Shows(v, desk) && h < |desk|
      modifies this, desk
      ensures Valid() && Desk(desk) && Shows(Effect(v, Connect(h, f)), desk) && log == old(log)
      ensures old(owners) <= owners && fresh(owners - old(owners))
    {
      var c := ConnectCallback(f);
      assert Shows(View(slots, v.handles, maxId), desk) && desk[h].id != c.id;
      desk[h].MoveFrom(c, this);
      assert slots == (v.slots - {v.handles[h]})[v.maxId := f];
    }

    method DisconnectAt(h: nat, desk: seq<Connection>, ghost v: View)
      requires Valid() && Desk(desk) && Shows(v, desk) && h < |desk|
      modifies this, desk
      ensures Valid() && Desk(desk) && Shows(Effect(v, Disconnect(h)), desk) && owners == old(owners) && log == old(log)
    {
      desk[h].Disconnect(this);
    }

    /** desk[t] = std::move(desk[f]) */
    method MoveTo(f: nat, t: nat, desk: seq<Connection>, ghost v: View)
      requires Valid() && Desk(desk) && Shows(v, desk) && f < |desk| && t < |desk| && f != t
      requires desk[f].signal != null
      modifies this, desk
      ensures Valid() && Desk(desk) && Shows(Effect(v, Move(f, t)), desk) && owners == old(owners) && log == old(log)
    {
      assert v.handles[f] != 0;
      desk[t].MoveFrom(desk[f], this);
    }

    method Execute(command: Command, desk: seq<Connection>, d: nat, ghost v: View) returns (ghost more: seq<Entry>)
      requires Valid() && Desk(desk) && Shows(v, desk)
      modifies this, desk
      ensures Valid() && Desk(desk) && Shows(Step(v, command, d), desk)
      ensures old(owners) <= owners && fresh(owners - old(owners))
      ensures log == old(log) + more && Logged(more, d, [command], v, Step(v, command, d))
      ensures command.Raise? && d > 0 ==> AtLevel(more, d - 1) == AllScripts(v, |Ids(v)|, d - 1)
      decreases d, 0
    {
      hide Desk, Valid, Logged, Ids, Turn, Effect, AtLevel, AllScripts;
      more := [Entry(d, command)];
      OneLogged(v, d, command);
      Note(more, desk, v);
      if command.Raise? && d > 0 {
        var _, nested := Dispatch(desk, d - 1, v);
        NestedLogged(more, nested, d, v, Turn(v, |Ids(v)|, d - 1), AllScripts(v, |Ids(v)|, d - 1));
        more := more + nested;
      } else {
        ExecuteAlone(command, desk, v);
      }
    }

    ghost method Note(more: seq<Entry>, desk: seq<Connection>, v: View)
      requires Valid() && Desk(desk) && Shows(v, desk)
      modifies `log
      ensures Valid() && Desk(desk) && Shows(v, desk) && log == old(log) + more
    {
      log := log + more;
    }

    /** The commands that raise nothing. */
    method ExecuteAlone(command: Command, desk: seq<Connection>, ghost v: View)
      requires Valid() && Desk(desk) && Shows(v, desk)
      modifies this, desk
      ensures Valid() && Desk(desk) && Shows(Effect(v, command), desk) && log == old(log)
      ensures old(owners) <= owners && fresh(owners - old(owners))
    {
      match command
      case Connect(h, f) =>
        if h < |desk| {
          ConnectAt(h, f, desk, v);
        }
      case Disconnect(h) =>
        if h < |desk| {
          DisconnectAt(h, desk, v);
        }
      case Move(f, t) =>
        if f < |desk| && t < |desk| && f != t && desk[f].signal != null {
          MoveTo(f, t, desk, v);
        }
      case Raise =>
    }

    /** A callback runs: all its commands, in order. */
    method Call(f: Script, desk: seq<Connection>, d: nat, ghost v: View) returns (ghost more: seq<Entry>)
      requires Valid() && Desk(desk) && Shows(v, desk)
      modifies this, desk
      ensures Valid() && Desk(desk) && Shows(Run(v, f.commands, d), desk)
      ensures old(owners) <= owners && fresh(owners - old(owners))
      ensures log == old(log) + more && Logged(more, d, f.commands, v, Run(v, f.commands, d))
      decreases d, 1
    {
      hide Desk, Valid, Step, Ids, Logged, AtLevel;
      var cs := f.commands;
      more := [];
      LoggedNothing(d, v);
      assert cs[..0] == [];
      for i := 0 to |cs|
        invariant Valid() && Desk(desk) && Shows(Run(v, cs[..i], d), desk)
        invariant old(owners) <= owners && fresh(owners - old(owners))
        invariant log == old(log) + more && Logged(more, d, cs[..i], v, Run(v, cs[..i], d))
      {
        assert cs[..i + 1][..i] == cs[..i] && cs[..i + 1] == cs[..i] + [cs[i]];
        ghost var w := Run(v, cs[..i], d);
        ghost var one := Execute(cs[i], desk, d, w);
        LoggedThen(more, one, d, cs[..i], [cs[i]], v, w, Step(w, cs[i], d));
        more := more + one;
      }
      assert cs[..|cs|] == cs;
    }

    /** One turn: the slot is called if it still is there. */
    method TakeTurn(id: nat, held: map<nat, Script>, desk: seq<Connection>, d: nat, ghost v: View, ghost k: nat)
      returns (calls: bool, ghost more: seq<Entry>)
      requires Valid() && Desk(desk) && k < |Ids(v)| && Shows(Turn(v, k, d), desk)
      requires id == Ids(v)[k] && held == v.slots
      modifies this, desk
      ensures Valid() && Desk(desk) && Shows(Turn(v, k + 1, d), desk)
      ensures old(owners) <= owners && fresh(owners - old(owners))
      ensures calls == (id in old(slots)) && Called(v, k + 1, d) == Called(v, k, d) + if calls then [id] else []
      ensures id in v.slots && log == old(log) + more
      ensures Logged(more, d, if calls then v.slots[id].commands else [], Turn(v, k, d), Turn(v, k + 1, d))
      decreases d, 2
    {
      hide Desk, Valid, Logged;
      calls := id in slots;
      assert id in Ids(v);
      if id in slots {
        more := Call(held[id], desk, d, Turn(v, k, d));
      } else {
        more := [];
        LoggedNothing(d, Turn(v, k, d));
      }
    }

    /**
      * operator(): calls what is connected when it begins and still is at its turn. What is
      * done at its level are the scripts of the slots that it calls, all of each and in
      * their order, and what it leaves is what has been done.
      */
    method Dispatch(desk: seq<Connection>, d: nat, ghost v: View) returns (called: seq<nat>, ghost more: seq<Entry>)
      requires Valid() && Desk(desk) && Shows(v, desk)
      modifies this, desk
      ensures Valid() && Desk(desk)
      ensures old(owners) <= owners && fresh(owners - old(owners))
      ensures called == Called(v, |Ids(v)|, d) && Shows(Turn(v, |Ids(v)|, d), desk)
      ensures log == old(log) + more
      ensures Logged(more, d, AllScripts(v, |Ids(v)|, d), v, Turn(v, |Ids(v)|, d))
      decreases d, 3
    {
      hide Desk, Valid, Turn, Ids, Keys, Logged, AllScripts, Called;
      var held := slots;
      var ids := Keys(held, maxId);
      called, more := [], [];
      DispatchBegins(v, d);
      for k := 0 to |ids|
        invariant Valid() && Desk(desk) && Shows(Turn(v, k, d), desk)
        invariant old(owners) <= owners && fresh(owners - old(owners))
        invariant called == Called(v, k, d)
        invariant log == old(log) + more && Logged(more, d, AllScripts(v, k, d), v, Turn(v, k, d))
      {
        var calls, one := TakeTurn(ids[k], held, desk, d, v, k);
        TurnLogged(more, one, v, k, d, calls);
        called := called + if calls then [ids[k]] else [];
        more := more + one;
      }
    }
  }
}
