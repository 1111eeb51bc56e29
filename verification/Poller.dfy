/**
  * The timers and the put-off calls of poller_t (lib/poller.cpp).
  *
  * A callback is a finite script of what it does to the poller while it runs. The clock is
  * the steady clock in nanoseconds; every look at it may find it advanced by any amount,
  * which a script of drifts says. std::sort is known by what it promises and no more: the
  * order of equal deadlines is open.
  */
module Pollers {
  datatype Script = Script(commands: seq<Command>)

  /** A handle is a place where the program keeps a timer_t. */
  datatype Command =
    | Arm(handle: nat, ms: int, callback: Script)
    | Disable(handle: nat)
    | Move(from: nat, to: nat)
    | Later(callback: Script)

  datatype TimerEvent = TimerEvent(when: int, id: nat, callback: Script)

  const MS := 1_000_000
  const INT_RANGE := 0x1_0000_0000

  // ----- the expiry test

  /** duration_cast drops the fraction: towards zero. */
  function Truncated(ns: int): int {
    if ns >= 0 then ns / MS else -(-ns / MS)
  }

  /** The cast to a 32-bit int. */
  function AsInt(n: int): int {
    var r := n % INT_RANGE;
    if r < INT_RANGE / 2 then r else r - INT_RANGE
  }

  /** ms_to_now(...) <= 0, when `ns` nanoseconds remain. */
  predicate Expired(ns: int) {
    AsInt(Truncated(ns)) <= 0
  }

  /** What remains of a timer, `elapsed` after it was armed. */
  function Remaining(ms: int, elapsed: nat): int {
    (ms + 1) * MS - elapsed
  }

  /** As long as the milliseconds fit an int, the test is that less than one of them remains. */
  lemma {:induction false} ExpiredInRange(ns: int)
    requires -INT_RANGE / 2 * MS <= ns < INT_RANGE / 2 * MS
    ensures Expired(ns) <==> ns < MS
  {
    if ns >= 0 {
      assert 0 <= ns / MS < INT_RANGE / 2;
    } else {
      assert 0 <= -ns / MS <= INT_RANGE / 2;
    }
  }

  /**
    * A timer fires only after all its milliseconds, exactly if they are fewer than 2^31 - 1.
    * A longer one fires at once when the milliseconds that remain do not fit an int.
    */
  lemma {:induction false} NeverEarlyIff(ms: nat)
    ensures (forall elapsed: nat :: Expired(Remaining(ms, elapsed)) ==> elapsed > ms * MS) <==> ms + 1 < INT_RANGE / 2
  {
    if ms + 1 < INT_RANGE / 2 {
      forall elapsed: nat | elapsed <= ms * MS
        ensures !Expired(Remaining(ms, elapsed))
      {
        ExpiredInRange(Remaining(ms, elapsed));
      }
    } else {
      var elapsed: nat := (ms + 1 - INT_RANGE / 2) * MS;
      assert Remaining(ms, elapsed) == INT_RANGE / 2 * MS;
      assert Truncated(Remaining(ms, elapsed)) == INT_RANGE / 2;
      assert Expired(Remaining(ms, elapsed)) && elapsed <= ms * MS;
    }
  }

  /** And when its deadline has passed it is seen to be expired, for the next 2^31 milliseconds. */
  lemma {:induction false} SeenExpired(ms: nat, elapsed: nat)
    requires ms + 1 < INT_RANGE / 2 && elapsed <= (ms + INT_RANGE / 2) * MS
    ensures Expired(Remaining(ms, elapsed)) <==> elapsed > ms * MS
  {
    ExpiredInRange(Remaining(ms, elapsed));
  }

  // ----- the list of timers

  predicate Sorted(ts: seq<TimerEvent>) {
    forall i, j | 0 <= i < j < |ts| :: ts[i].when <= ts[j].when
  }

  /** No id is there twice. */
  ghost predicate Distinct(ts: seq<TimerEvent>) {
    && (forall t, u | t in ts && u in ts && t.id == u.id :: t == u)
    && (forall t | t in ts :: multiset(ts)[t] == 1)
  }

  ghost predicate Live(ts: seq<TimerEvent>, id: nat) {
    exists t :: t in ts && t.id == id
  }

  /** remove_if */
  function Without(ts: seq<TimerEvent>, id: nat): seq<TimerEvent> {
    if ts == [] then []
    else Without(ts[..|ts| - 1], id) + if ts[|ts| - 1].id == id then [] else [ts[|ts| - 1]]
  }

  lemma {:induction false} WithoutHolds(ts: seq<TimerEvent>, id: nat)
    ensures forall t :: t in Without(ts, id) <==> t in ts && t.id != id
    ensures multiset(Without(ts, id)) <= multiset(ts)
  {
    if ts != [] {
      var n := |ts| - 1;
      WithoutHolds(ts[..n], id);
      assert ts == ts[..n] + [ts[n]];
    }
  }

  lemma {:induction false} WithoutSorted(ts: seq<TimerEvent>, id: nat)
    requires Sorted(ts)
    ensures Sorted(Without(ts, id))
  {
    if ts != [] {
      var n := |ts| - 1;
      WithoutSorted(ts[..n], id);
      WithoutHolds(ts[..n], id);
      var w := Without(ts[..n], id);
      forall i | 0 <= i < |w|
        ensures w[i].when <= ts[n].when
      {
        assert w[i] in ts[..n];
      }
    }
  }

  lemma {:induction false} WithoutDistinct(ts: seq<TimerEvent>, id: nat)
    requires Distinct(ts)
    ensures Distinct(Without(ts, id))
  {
    WithoutHolds(ts, id);
    var ws := Without(ts, id);
    forall t | t in ws
      ensures multiset(ws)[t] == 1
    {
      assert t in multiset(ws) && t in ts;
      assert multiset(ws)[t] <= multiset(ts)[t];
    }
  }

  // ----- how much the callbacks of a list can still do

  function Size(s: Script): nat
    decreases s
  {
    1 + Cost(s.commands)
  }

  function Cost(commands: seq<Command>): nat
    decreases commands
  {
    if commands == [] then 0
    else Cost(commands[..|commands| - 1]) + CommandCost(commands[|commands| - 1])
  }

  function CommandCost(c: Command): nat
    decreases c
  {
    match c
    case Arm(_, _, f) => Size(f)
    case Later(f) => Size(f)
    case _ => 0
  }

  /** The sizes of all callbacks but that of `id`. */
  function Total(ts: seq<TimerEvent>, id: nat): nat {
    if ts == [] then 0
    else Total(ts[..|ts| - 1], id) + if ts[|ts| - 1].id == id then 0 else Size(ts[|ts| - 1].callback)
  }

  lemma {:induction false} TotalAppend(ts: seq<TimerEvent>, us: seq<TimerEvent>, id: nat)
    ensures Total(ts + us, id) == Total(ts, id) + Total(us, id)
  {
    if us == [] {
      assert ts + us == ts;
    } else {
      var n := |us| - 1;
      TotalAppend(ts, us[..n], id);
      assert (ts + us)[..|ts + us| - 1] == ts + us[..n];
    }
  }

  lemma {:induction false} TotalOne(t: TimerEvent, id: nat)
    ensures Total([t], id) == if t.id == id then 0 else Size(t.callback)
  {
    assert [t][..0] == [];
  }

  lemma {:induction false} TotalRemoveAt(ts: seq<TimerEvent>, k: nat, id: nat)
    requires k < |ts|
    ensures Total(ts, id) == Total(ts[..k] + ts[k + 1..], id) + Total([ts[k]], id)
  {
    TotalAppend(ts[..k], ts[k + 1..], id);
    TotalAppend(ts[..k] + [ts[k]], ts[k + 1..], id);
    TotalAppend(ts[..k], [ts[k]], id);
    assert ts == ts[..k] + [ts[k]] + ts[k + 1..];
  }

  lemma {:induction false} RemoveAt(ts: seq<TimerEvent>, k: nat)
    requires k < |ts|
    ensures multiset(ts[..k] + ts[k + 1..]) == multiset(ts) - multiset{ts[k]}
  {
    assert ts == ts[..k] + [ts[k]] + ts[k + 1..];
  }

  lemma {:induction false} TotalPermutes(ts: seq<TimerEvent>, us: seq<TimerEvent>, id: nat)
    requires multiset(ts) == multiset(us)
    ensures Total(ts, id) == Total(us, id)
    decreases |ts|
  {
    if ts == [] {
      assert |multiset(us)| == 0;
    } else {
      hide Total;
      var n := |ts| - 1;
      assert ts[n] in multiset(us);
      var k :| 0 <= k < |us| && us[k] == ts[n];
      RemoveAt(ts, n);
      RemoveAt(us, k);
      TotalRemoveAt(ts, n, id);
      TotalRemoveAt(us, k, id);
      TotalPermutes(ts[..n] + ts[n + 1..], us[..k] + us[k + 1..], id);
    }
  }

  lemma {:induction false} TotalWithout(ts: seq<TimerEvent>, gone: nat, id: nat)
    ensures Total(Without(ts, gone), id) <= Total(ts, id)
    ensures gone == id ==> Total(Without(ts, gone), 0) <= Total(ts, id)
  {
    if ts != [] {
      var n := |ts| - 1;
      TotalWithout(ts[..n], gone, id);
      if ts[n].id != gone {
        TotalAppend(Without(ts[..n], gone), [ts[n]], id);
        TotalAppend(Without(ts[..n], gone), [ts[n]], 0);
        TotalOne(ts[n], id);
        TotalOne(ts[n], 0);
      } else {
        assert Without(ts[..n], gone) + [] == Without(ts[..n], gone);
      }
    }
  }

  /** The one that fires does not count while it does. */
  lemma {:induction false} TotalOfRest(ts: seq<TimerEvent>, t: TimerEvent)
    requires t in ts && (forall u | u in ts :: u.id != 0)
    ensures Total(ts, t.id) + Size(t.callback) <= Total(ts, 0)
  {
    var n := |ts| - 1;
    assert ts[n] in ts;
    if ts[n] == t {
      TotalWithoutZero(ts[..n], t.id);
    } else {
      assert t in ts[..n];
      TotalOfRest(ts[..n], t);
    }
  }

  lemma {:induction false} TotalWithoutZero(ts: seq<TimerEvent>, id: nat)
    requires forall u | u in ts :: u.id != 0
    ensures Total(ts, id) <= Total(ts, 0)
  {
    if ts != [] {
      assert ts[|ts| - 1] in ts;
      TotalWithoutZero(ts[..|ts| - 1], id);
    }
  }

  // ----- the put-off calls

  /** What the commands put off, in order. */
  function Laters(commands: seq<Command>): seq<Script> {
    if commands == [] then []
    else
      var c := commands[|commands| - 1];
      Laters(commands[..|commands| - 1]) + if c.Later? then [c.callback] else []
  }

  function Weight(queue: seq<Script>): nat {
    if queue == [] then 0 else Weight(queue[..|queue| - 1]) + Size(queue[|queue| - 1])
  }

  lemma {:induction false} WeightAppend(q: seq<Script>, r: seq<Script>)
    ensures Weight(q + r) == Weight(q) + Weight(r)
  {
    if r == [] {
      assert q + r == q;
    } else {
      var n := |r| - 1;
      WeightAppend(q, r[..n]);
      assert (q + r)[..|q + r| - 1] == q + r[..n];
    }
  }

  lemma {:induction false} LatersCost(commands: seq<Command>)
    ensures Weight(Laters(commands)) <= Cost(commands)
  {
    if commands != [] {
      var n := |commands| - 1;
      LatersCost(commands[..n]);
      if commands[n].Later? {
        WeightAppend(Laters(commands[..n]), [commands[n].callback]);
        assert [commands[n].callback][..0] == [];
        assert Weight([commands[n].callback]) == Size(commands[n].callback);
      } else {
        assert Laters(commands[..n]) + [] == Laters(commands[..n]);
      }
    }
  }

  lemma {:induction false} NextWeighsLess(queue: seq<Script>)
    requires queue != []
    ensures Weight(queue[1..] + Laters(queue[0].commands)) < Weight(queue)
  {
    assert queue == queue[..1] + queue[1..];
    WeightAppend(queue[..1], queue[1..]);
    assert queue[..1][..0] == [];
    assert Weight(queue[..1]) == Size(queue[0]);
    WeightAppend(queue[1..], Laters(queue[0].commands));
    LatersCost(queue[0].commands);
  }

  /** A plain queue: one is taken from the front and run, what it puts off goes to the back. */
  function Fifo(queue: seq<Script>): seq<Script>
    decreases Weight(queue)
  {
    if queue == [] then []
    else
      NextWeighsLess(queue);
      [queue[0]] + Fifo(queue[1..] + Laters(queue[0].commands))
  }

  lemma {:induction false} FifoStep(f: Script, rest: seq<Script>, later: seq<Script>)
    ensures var put := Laters(f.commands);
            && Fifo([f] + rest + later) == [f] + Fifo(rest + (later + put))
            && Weight(rest + (later + put)) < Weight([f] + rest + later)
  {
    var queue, put := [f] + rest + later, Laters(f.commands);
    assert queue[0] == f && queue[1..] + put == rest + (later + put);
    NextWeighsLess(queue);
    assert Fifo(queue) == [f] + Fifo(queue[1..] + put);
  }

  // ----- the timers, with what has become of them

  /** What there was when a timer fired. */
  datatype Firing = Firing(timer: TimerEvent, at: int, live: seq<TimerEvent>, disabled: set<nat>)

  datatype Armed = Armed(at: int, ms: int)

  datatype Queue = Queue(
    clock: nat,
    timers: seq<TimerEvent>,
    maxTimerId: nat,
    log: seq<Firing>,
    disabled: set<nat>,           // ids that were removed through their handles
    armed: map<nat, Armed>,
    firing: nat)                  // the id of the timer whose callback is running, or 0

  /** The timer that fired was in the list, had the least deadline there, was expired and not disabled. */
  ghost predicate Good(f: Firing) {
    && f.timer in f.live && (forall t | t in f.live :: f.timer.when <= t.when)
    && Expired(f.timer.when - f.at) && f.timer.id !in f.disabled
  }

  ghost predicate WasFired(log: seq<Firing>, id: nat) {
    exists f :: f in log && f.timer.id == id
  }

  ghost predicate OnTime(t: TimerEvent, armed: map<nat, Armed>) {
    t.id in armed && t.when == armed[t.id].at + (armed[t.id].ms + 1) * MS
  }

  /** The list: sorted, with ids that are not used again. */
  ghost predicate ListInv(q: Queue) {
    && q.firing < q.maxTimerId && Sorted(q.timers) && Distinct(q.timers)
    && (forall t | t in q.timers :: 0 < t.id && OnTime(t, q.armed) && t.id !in q.disabled)
    && (forall id | id in q.armed :: 0 < id < q.maxTimerId && q.armed[id].at <= q.clock)
    && (forall id | id in q.disabled :: id < q.maxTimerId)
  }

  /** The log: no timer fires twice, each had the right to fire when it did. */
  ghost predicate LogInv(log: seq<Firing>, armed: map<nat, Armed>, timers: seq<TimerEvent>, firing: nat) {
    && (forall f | f in log :: Good(f) && OnTime(f.timer, armed) && armed[f.timer.id].at <= f.at)
    && (forall i, j | 0 <= i < j < |log| :: log[i].timer.id != log[j].timer.id)
    && (forall t | t in timers && WasFired(log, t.id) :: t.id == firing)
  }

  /** No timer is lost: each is in the list, has fired, or was disabled. */
  ghost predicate NoneLost(q: Queue) {
    forall id | id in q.armed :: Live(q.timers, id) || WasFired(q.log, id) || id in q.disabled
  }

  ghost predicate Inv(q: Queue) {
    ListInv(q) && LogInv(q.log, q.armed, q.timers, q.firing) && NoneLost(q)
  }

  /** add_timer_event; `ts` is what sorting has made of the list. */
  function Added(q: Queue, ms: int, ts: seq<TimerEvent>): Queue {
    q.(timers := ts, maxTimerId := q.maxTimerId + 1, armed := q.armed[q.maxTimerId := Armed(q.clock, ms)])
  }

  function NewTimer(q: Queue, ms: int, f: Script): TimerEvent {
    TimerEvent(q.clock + (ms + 1) * MS, q.maxTimerId, f)
  }

  lemma {:induction false} PermutedMembers(ts: seq<TimerEvent>, us: seq<TimerEvent>)
    requires multiset(ts) == multiset(us)
    ensures forall t :: t in ts <==> t in us
  {
    forall t
      ensures t in ts <==> t in us
    {
      assert t in multiset(ts) <==> t in multiset(us);
    }
  }

  lemma {:induction false} AddKeepsList(q: Queue, ms: int, f: Script, ts: seq<TimerEvent>)
    requires ListInv(q) && q.maxTimerId > 0
    requires Sorted(ts) && multiset(ts) == multiset(q.timers + [NewTimer(q, ms, f)])
    ensures ListInv(Added(q, ms, ts))
  {
    var t := NewTimer(q, ms, f);
    PermutedMembers(ts, q.timers + [t]);
    assert t !in q.timers;
    forall u | u in ts
      ensures multiset(ts)[u] == 1
    {
      assert multiset(q.timers + [t]) == multiset(q.timers) + multiset{t};
      assert u in q.timers || u == t;
    }
  }

  lemma {:induction false} AddKeepsLog(q: Queue, ms: int, f: Script, ts: seq<TimerEvent>)
    requires LogInv(q.log, q.armed, q.timers, q.firing) && q.maxTimerId !in q.armed
    requires multiset(ts) == multiset(q.timers + [NewTimer(q, ms, f)])
    ensures LogInv(q.log, Added(q, ms, ts).armed, ts, q.firing)
  {
    var t := NewTimer(q, ms, f);
    PermutedMembers(ts, q.timers + [t]);
    assert forall g | g in q.log :: g.timer.id in q.armed;
    assert !WasFired(q.log, t.id);
    hide Good, WasFired;
    assert forall u | u in ts :: u in q.timers || u == t;
  }

  lemma {:induction false} AddLosesNone(q: Queue, ms: int, f: Script, ts: seq<TimerEvent>)
    requires NoneLost(q) && multiset(ts) == multiset(q.timers + [NewTimer(q, ms, f)])
    ensures NoneLost(Added(q, ms, ts))
  {
    var t := NewTimer(q, ms, f);
    PermutedMembers(ts, q.timers + [t]);
    assert t in q.timers + [t];
    hide WasFired;
    forall id | id in q.armed && Live(q.timers, id)
      ensures Live(ts, id)
    {
      var u :| u in q.timers && u.id == id;
      assert u in ts;
    }
  }

  /** remove_timer */
  function Removed(q: Queue, id: nat): Queue {
    q.(timers := Without(q.timers, id), disabled := q.disabled + {id})
  }

  lemma {:induction false} DropKeepsList(q: Queue, id: nat)
    requires ListInv(q)
    ensures ListInv(q.(timers := Without(q.timers, id)))
    ensures forall t | t in Without(q.timers, id) :: t.id != id
  {
    hide Distinct, Sorted, Without, OnTime;
    WithoutHolds(q.timers, id);
    WithoutSorted(q.timers, id);
    WithoutDistinct(q.timers, id);
  }

  lemma {:induction false} DropKeepsLog(q: Queue, id: nat)
    requires LogInv(q.log, q.armed, q.timers, q.firing)
    ensures LogInv(q.log, q.armed, Without(q.timers, id), q.firing)
  {
    WithoutHolds(q.timers, id);
    hide Without, OnTime, Good, WasFired;
  }

  lemma {:induction false} DropLosesOne(q: Queue, id: nat, k: nat)
    requires Live(q.timers, k) && k != id
    ensures Live(Without(q.timers, id), k)
  {
    WithoutHolds(q.timers, id);
    var t :| t in q.timers && t.id == k;
    assert t in Without(q.timers, id);
  }

  lemma {:induction false} DropLosesNone(q: Queue, id: nat)
    requires NoneLost(q) && (id in q.disabled || WasFired(q.log, id))
    ensures NoneLost(q.(timers := Without(q.timers, id)))
  {
    hide Without, WasFired, Live;
    forall k | k in q.armed
      ensures Live(Without(q.timers, id), k) || WasFired(q.log, k) || k in q.disabled
    {
      if k != id && Live(q.timers, k) {
        DropLosesOne(q, id, k);
      }
    }
  }

  lemma {:induction false} DisableKeeps(q: Queue, id: nat)
    requires NoneLost(q)
    ensures NoneLost(q.(disabled := q.disabled + {id}))
  {
    hide Live, WasFired;
  }

  lemma {:induction false} DisableKeepsList(q: Queue, id: nat)
    requires ListInv(q) && id < q.maxTimerId && forall t | t in q.timers :: t.id != id
    ensures ListInv(q.(disabled := q.disabled + {id}))
  {
    hide Sorted, Distinct, OnTime;
  }

  lemma {:induction false} RemoveKeeps(q: Queue, id: nat)
    requires Inv(q) && id < q.maxTimerId
    ensures Inv(Removed(q, id))
  {
    DropKeepsList(q, id);
    DropKeepsLog(q, id);
    DisableKeeps(q, id);
    var r := q.(disabled := q.disabled + {id});
    DropLosesNone(r, id);
    DisableKeepsList(q.(timers := Without(q.timers, id)), id);
    hide ListInv, LogInv, NoneLost;
  }

  /** The first timer of the list begins to fire. */
  function Fired(q: Queue): Queue
    requires q.timers != []
  {
    q.(log := q.log + [Firing(q.timers[0], q.clock, q.timers, q.disabled)], firing := q.timers[0].id)
  }

  lemma {:induction false} FirstIsGood(q: Queue)
    requires ListInv(q) && q.timers != [] && Expired(q.timers[0].when - q.clock)
    ensures Good(Firing(q.timers[0], q.clock, q.timers, q.disabled))
  {
    var t := q.timers[0];
    assert t in q.timers;
    forall u | u in q.timers
      ensures t.when <= u.when
    {
      var i :| 0 <= i < |q.timers| && q.timers[i] == u;
    }
  }

  lemma {:induction false} FiredAppend(log: seq<Firing>, f: Firing, id: nat)
    ensures WasFired(log + [f], id) <==> WasFired(log, id) || id == f.timer.id
  {
    if WasFired(log, id) {
      var g :| g in log && g.timer.id == id;
      assert g in log + [f];
    }
    if id == f.timer.id {
      assert f in log + [f];
    }
  }

  lemma {:induction false} FireKeeps(q: Queue)
    requires Inv(q) && q.firing == 0 && q.timers != [] && Expired(q.timers[0].when - q.clock)
    ensures Inv(Fired(q)) && WasFired(Fired(q).log, Fired(q).firing)
  {
    var r, t := Fired(q), q.timers[0];
    var f := r.log[|q.log|];
    assert t in q.timers && !WasFired(q.log, t.id);
    FirstIsGood(q);
    forall id
      ensures WasFired(r.log, id) <==> WasFired(q.log, id) || id == t.id
    {
      FiredAppend(q.log, f, id);
    }
    forall i | 0 <= i < |q.log|
      ensures q.log[i].timer.id != t.id
    {
      assert q.log[i] in q.log;
      assert WasFired(q.log, q.log[i].timer.id);
    }
    hide Distinct, Sorted, Good, WasFired, Live;
  }

  lemma {:induction false} FireFollows(q: Queue)
    requires ListInv(q) && q.timers != []
    ensures Follows(q, Fired(q))
  {
    assert q.timers[0] in q.timers;
    hide Distinct, Sorted, OnTime;
  }

  /** Its callback has returned, and the handle that the loop had of it goes out of scope. */
  function Finished(q: Queue): Queue {
    q.(timers := Without(q.timers, q.firing), firing := 0)
  }

  lemma {:induction false} FinishKeeps(q: Queue)
    requires Inv(q) && WasFired(q.log, q.firing)
    ensures Inv(Finished(q))
  {
    hide Distinct, Sorted, Without, OnTime, Good, WasFired, Live;
    DropKeepsList(q, q.firing);
    DropKeepsLog(q, q.firing);
    DropLosesNone(q, q.firing);
    WithoutHolds(q.timers, q.firing);
  }

  /** No timer that was given fewer than 2^31 - 1 milliseconds has fired before they were over. */
  lemma {:induction false} NoneFiresEarly(q: Queue, f: Firing)
    requires Inv(q) && f in q.log
    requires var a := q.armed[f.timer.id]; 0 <= a.ms && a.ms + 1 < INT_RANGE / 2
    ensures f.at - q.armed[f.timer.id].at > q.armed[f.timer.id].ms * MS
  {
    var a := q.armed[f.timer.id];
    assert f.timer.when - f.at == Remaining(a.ms, f.at - a.at);
    NeverEarlyIff(a.ms);
  }

  // ----- what a callback may do to the timers

  lemma {:induction false} AddTotal(q: Queue, ms: int, f: Script, ts: seq<TimerEvent>)
    requires q.firing < q.maxTimerId && multiset(ts) == multiset(q.timers + [NewTimer(q, ms, f)])
    ensures Total(ts, q.firing) == Total(q.timers, q.firing) + Size(f)
  {
    var t := NewTimer(q, ms, f);
    TotalPermutes(ts, q.timers + [t], q.firing);
    TotalAppend(q.timers, [t], q.firing);
    TotalOne(t, q.firing);
  }

  /**
    * What has been stays: ids are given anew only, what was asked for with each and what was
    * removed is remembered, firings are added to the log, and none of them is of a timer
    * that had been removed.
    */
  ghost predicate Follows(b: Queue, a: Queue) {
    && b.clock <= a.clock && b.maxTimerId <= a.maxTimerId && b.disabled <= a.disabled && b.log <= a.log
    && (forall id | id in b.armed :: id in a.armed && a.armed[id] == b.armed[id])
    && (forall id | id in a.armed && id < b.maxTimerId :: id in b.armed)
    && (forall i | |b.log| <= i < |a.log| :: a.log[i].timer.id !in b.disabled)
  }

  lemma {:induction false} FollowsItself(q: Queue)
    ensures Follows(q, q)
  {}

  lemma {:induction false} FollowsThen(b: Queue, m: Queue, a: Queue)
    requires Follows(b, m) && Follows(m, a)
    ensures Follows(b, a)
  {
    forall i | |b.log| <= i < |a.log|
      ensures a.log[i].timer.id !in b.disabled
    {
      assert i < |m.log| ==> a.log[i] == m.log[i];
    }
  }

  /** A timer that was removed does not come back, and does not fire, whatever happens later. */
  lemma {:induction false} RemovedForGood(q: Queue, id: nat, a: Queue)
    requires Inv(q) && id < q.maxTimerId && Follows(Removed(q, id), a) && Inv(a)
    ensures id in a.disabled && !Live(a.timers, id)
    ensures forall i | |q.log| <= i < |a.log| :: a.log[i].timer.id != id
  {
    assert id in Removed(q, id).disabled;
    hide Without, Sorted, Distinct, OnTime, LogInv, NoneLost;
  }

  /** The log is as it was, and what the list can still do has grown by `cost` at most. */
  ghost predicate Ran(b: Queue, a: Queue, cost: nat) {
    && Inv(a) && Follows(b, a) && a.log == b.log && a.firing == b.firing
    && Total(a.timers, b.firing) <= Total(b.timers, b.firing) + cost
  }

  lemma {:induction false} RanThen(b: Queue, m: Queue, a: Queue, c: nat, d: nat)
    requires Ran(b, m, c) && Ran(m, a, d)
    ensures Ran(b, a, c + d)
  {
    FollowsThen(b, m, a);
    hide Inv, Follows;
  }

  lemma {:induction false} RanNothing(q: Queue)
    requires Inv(q)
    ensures Ran(q, q, 0)
  {
    hide Inv;
  }

  lemma {:induction false} RanLess(b: Queue, a: Queue, cost: nat)
    requires Ran(b, a, 0)
    ensures Ran(b, a, cost)
  {
    hide Inv;
  }

  lemma {:induction false} TimePasses(q: Queue, clock: nat)
    requires Inv(q) && q.clock <= clock
    ensures Inv(q.(clock := clock))
  {
    hide Distinct, Sorted, Good, WasFired, Live;
  }

  lemma {:induction false} ClockFollows(q: Queue, clock: nat)
    requires q.clock <= clock
    ensures Follows(q, q.(clock := clock))
  {}

  lemma {:induction false} LaterClock(b: Queue, q: Queue, a: Queue, cost: nat)
    requires q == b.(clock := q.clock) && b.clock <= q.clock && Ran(q, a, cost)
    ensures Ran(b, a, cost)
  {
    ClockFollows(b, q.clock);
    FollowsThen(b, q, a);
    hide Inv, Follows;
  }

  lemma {:induction false} AddFollows(q: Queue, ms: int, ts: seq<TimerEvent>)
    requires q.maxTimerId !in q.armed
    ensures Follows(q, Added(q, ms, ts))
  {}

  lemma {:induction false} AddRuns(q: Queue, ms: int, f: Script, ts: seq<TimerEvent>)
    requires Inv(q) && q.maxTimerId > 0
    requires Sorted(ts) && multiset(ts) == multiset(q.timers + [NewTimer(q, ms, f)])
    ensures Ran(q, Added(q, ms, ts), Size(f))
  {
    AddKeepsList(q, ms, f, ts);
    AddKeepsLog(q, ms, f, ts);
    AddLosesNone(q, ms, f, ts);
    AddTotal(q, ms, f, ts);
    AddFollows(q, ms, ts);
    hide Distinct, Sorted, LogInv, NoneLost, OnTime, Follows;
  }

  lemma {:induction false} RemoveRuns(q: Queue, id: nat)
    requires Inv(q) && id < q.maxTimerId
    ensures Ran(q, Removed(q, id), 0)
  {
    RemoveKeeps(q, id);
    TotalWithout(q.timers, id, q.firing);
    hide Inv;
  }

  lemma {:induction false} RanIn(b: Queue, a: Queue, t: TimerEvent)
    requires Ran(b, a, Cost(t.callback.commands)) && b.firing == t.id
    ensures Follows(b, a) && a.log == b.log && a.firing == t.id
    ensures Total(a.timers, t.id) < Total(b.timers, t.id) + Size(t.callback)
  {
    hide Inv;
  }

  lemma {:induction false} InsertSorted(ts: seq<TimerEvent>, k: nat, t: TimerEvent)
    requires Sorted(ts) && k <= |ts|
    requires (k > 0 ==> ts[k - 1].when <= t.when) && (forall j | k <= j < |ts| :: t.when < ts[j].when)
    ensures Sorted(ts[..k] + [t] + ts[k..])
  {
    var us := ts[..k] + [t] + ts[k..];
    forall i, j | 0 <= i < j < |us|
      ensures us[i].when <= us[j].when
    {
      var a, b := if i < k then i else i - 1, if j < k then j else j - 1;
      assert i < k ==> us[i] == ts[i] && ts[i].when <= t.when;
      assert i > k ==> us[i] == ts[a];
      assert j > k ==> us[j] == ts[b];
      assert j < k ==> us[j] == ts[j];
    }
  }

  lemma {:induction false} InsertAdds(ts: seq<TimerEvent>, k: nat, t: TimerEvent)
    requires k <= |ts|
    ensures multiset(ts[..k] + [t] + ts[k..]) == multiset(ts) + multiset{t}
  {
    assert ts == ts[..k] + ts[k..];
  }

  // ----- what commands do to all that callbacks can reach

  datatype Board = Board(
    clock: nat,
    drifts: seq<nat>,
    timers: set<TimerEvent>,
    maxTimerId: nat,
    handles: seq<nat>,
    later: seq<Script>)

  /** A look at the clock. */
  function Looked(b: Board): Board {
    var (clock, drifts) := LookAt(b.clock, b.drifts);
    b.(clock := clock, drifts := drifts)
  }

  function LookAt(clock: nat, drifts: seq<nat>): (nat, seq<nat>) {
    if drifts == [] then (clock, []) else (clock + drifts[0], drifts[1..])
  }

  /** Without the timer of a handle, which may have none. */
  function Minus(ts: set<TimerEvent>, id: nat): set<TimerEvent> {
    set t | t in ts && (t.id == id ==> t.id == 0)
  }

  function Did(b: Board, c: Command): Board {
    match c
    case Arm(h, ms, f) =>
      if h < |b.handles| then
        var l := Looked(b);
        l.(timers := Minus(l.timers, l.handles[h]) + {TimerEvent(l.clock + (ms + 1) * MS, l.maxTimerId, f)},
           maxTimerId := l.maxTimerId + 1, handles := l.handles[h := l.maxTimerId])
      else b
    case Disable(h) =>
      if h < |b.handles| then b.(timers := Minus(b.timers, b.handles[h]), handles := b.handles[h := 0]) else b
    case Move(f, t) =>
      if f < |b.handles| && t < |b.handles| then
        b.(timers := Minus(b.timers, b.handles[t]),
           handles := b.handles[t := if f == t then 0 else b.handles[f]][f := 0])
      else b
    case Later(f) => b.(later := b.later + [f])
  }

  function DidAll(b: Board, commands: seq<Command>): Board {
    if commands == [] then b else Did(DidAll(b, commands[..|commands| - 1]), commands[|commands| - 1])
  }

  /** Each command of a script is carried out, at its place, after those before it and before those behind it. */
  lemma {:induction false} EachIsDone(b: Board, commands: seq<Command>, k: nat)
    requires k < |commands|
    ensures DidAll(b, commands) == DidAll(Did(DidAll(b, commands[..k]), commands[k]), commands[k + 1..])
    decreases |commands|
  {
    hide Did;
    var n := |commands| - 1;
    if k == n {
      assert commands[k + 1..] == [];
    } else {
      EachIsDone(b, commands[..n], k);
      assert commands[..n][..k] == commands[..k] && commands[..n][k + 1..] == commands[k + 1..][..n - k - 1];
      assert commands[k + 1..][|commands[k + 1..]| - 1] == commands[n];
    }
  }

  /** Arming: a new id, which the handle holds and no timer had; its old timer is gone, all others stay. */
  lemma {:induction false} ArmingDoes(b: Board, h: nat, ms: int, f: Script)
    requires h < |b.handles| && forall t | t in b.timers :: t.id < b.maxTimerId
    ensures var a := Did(b, Arm(h, ms, f));
            && a.handles[h] == b.maxTimerId < a.maxTimerId
            && (forall t | t in a.timers && t.id == a.handles[h] ::
                  t.callback == f && t.when == a.clock + (ms + 1) * MS)
            && (exists t :: t in a.timers && t.id == a.handles[h])
            && (forall t | t in b.timers :: t in a.timers <==> t.id != b.handles[h] || t.id == 0)
            && (forall k | 0 <= k < |b.handles| && k != h :: a.handles[k] == b.handles[k])
            && a.later == b.later && b.clock <= a.clock
  {
    var a := Did(b, Arm(h, ms, f));
    assert TimerEvent(a.clock + (ms + 1) * MS, b.maxTimerId, f) in a.timers;
  }

  /** Disabling: the timer of the handle is gone, all others stay. */
  lemma {:induction false} DisablingDoes(b: Board, h: nat)
    requires h < |b.handles|
    ensures var a := Did(b, Disable(h));
            && a.handles[h] == 0
            && (forall t :: t in a.timers <==> t in b.timers && (t.id != b.handles[h] || t.id == 0))
            && (forall k | 0 <= k < |b.handles| && k != h :: a.handles[k] == b.handles[k])
            && a.later == b.later
  {}

  /** Moving: the target holds what the other held, which holds nothing; only the target's own timer is gone. */
  lemma {:induction false} MovingDoes(b: Board, f: nat, t: nat)
    requires f < |b.handles| && t < |b.handles| && f != t
    ensures var a := Did(b, Move(f, t));
            && a.handles[t] == b.handles[f] && a.handles[f] == 0
            && (forall u :: u in a.timers <==> u in b.timers && (u.id != b.handles[t] || u.id == 0))
            && (forall k | 0 <= k < |b.handles| && k != f && k != t :: a.handles[k] == b.handles[k])
            && a.later == b.later
  {}

  /** What a script puts off is put off behind what there is, in its order. */
  lemma {:induction false} LatersAreLast(b: Board, commands: seq<Command>)
    ensures DidAll(b, commands).later == b.later + Laters(commands)
    ensures |DidAll(b, commands).handles| == |b.handles|
  {
    if commands != [] {
      LatersAreLast(b, commands[..|commands| - 1]);
    } else {
      assert b.later + [] == b.later;
    }
  }

  /** What the callbacks of these firings put off. */
  function PutOff(log: seq<Firing>): seq<Script> {
    if log == [] then [] else PutOff(log[..|log| - 1]) + Laters(log[|log| - 1].timer.callback.commands)
  }

  lemma {:induction false} PutsOff(b: Board, f: Script)
    ensures Did(b, Later(f)) == b.(later := b.later + [f])
  {}

  /** The scripts, one after the other, without what they put off. */
  function RanAll(b: Board, scripts: seq<Script>): Board {
    if scripts == [] then b.(later := [])
    else DidAll(RanAll(b, scripts[..|scripts| - 1]), scripts[|scripts| - 1].commands).(later := [])
  }

  /** Nothing that a command does to the timers depends on what is put off. */
  lemma {:induction false} LaterApart(b: Board, later: seq<Script>, commands: seq<Command>)
    ensures DidAll(b.(later := later), commands).(later := []) == DidAll(b, commands).(later := [])
  {
    if commands != [] {
      LaterApart(b, later, commands[..|commands| - 1]);
    }
  }

  lemma {:induction false} OneScriptMore(b: Board, scripts: seq<Script>, m: Board, f: Script)
    requires m.(later := []) == RanAll(b, scripts)
    ensures DidAll(m, f.commands).(later := []) == RanAll(b, scripts + [f])
  {
    assert (scripts + [f])[..|scripts|] == scripts;
    LaterApart(m, [], f.commands);
    hide DidAll;
  }

  lemma {:induction false} RanAllAppend(b: Board, x: seq<Script>, y: seq<Script>)
    ensures RanAll(RanAll(b, x), y) == RanAll(b, x + y)
  {
    hide DidAll;
    if y == [] {
      assert x + y == x;
    } else {
      RanAllAppend(b, x, y[..|y| - 1]);
      assert (x + y)[..|x + y| - 1] == x + y[..|y| - 1];
    }
  }

  lemma {:induction false} NoScript(b: Board)
    ensures RanAll(b, []) == b.(later := [])
  {}

  lemma {:induction false} RanAllSame(b: Board, m: Board, scripts: seq<Script>)
    requires b.(later := []) == m
    ensures RanAll(m, scripts) == RanAll(b, scripts)
  {
    hide DidAll;
    if scripts != [] {
      RanAllSame(b, m, scripts[..|scripts| - 1]);
    }
  }

  /** A timer has fired: its callback has run, and it is gone. */
  function AfterFiring(b: Board, t: TimerEvent): Board {
    var a := DidAll(b, t.callback.commands);
    a.(timers := set u | u in a.timers && u.id != t.id)
  }

  /** Rounds of the loop, each with a look at the clock and a firing. */
  function Rounds(b: Board, log: seq<Firing>): Board {
    if log == [] then b else AfterFiring(Looked(Rounds(b, log[..|log| - 1])), log[|log| - 1].timer)
  }

  /** And a last look, unless nothing is left. */
  function AllRounds(b: Board, log: seq<Firing>): Board {
    var a := Rounds(b, log);
    if a.timers == {} then a else Looked(a)
  }

  lemma {:induction false} NoRound(b: Board)
    ensures Rounds(b, []) == b && PutOff([]) == []
  {}

  lemma {:induction false} LastRound(b: Board, log: seq<Firing>)
    ensures var a := Rounds(b, log); AllRounds(b, log) == if a.timers == {} then a else Looked(a)
  {}

  lemma {:induction false} OneRoundMore(b: Board, before: seq<Firing>, middle: seq<Firing>, f: Firing)
    requires before <= middle
    ensures Rounds(b, (middle + [f])[|before|..]) == AfterFiring(Looked(Rounds(b, middle[|before|..])), f.timer)
    ensures PutOff((middle + [f])[|before|..]) == PutOff(middle[|before|..]) + Laters(f.timer.callback.commands)
  {
    var m := middle[|before|..];
    assert (middle + [f])[|before|..] == m + [f];
    assert (m + [f])[..|m|] == m;
  }

  class Poller {
    var clock: nat
    /** By how much the clock will be found advanced, look by look. */
    var drifts: seq<nat>
    var timers: seq<TimerEvent>
    var later: seq<Script>
    var maxTimerId: nat
    /** The ids that the program's timer_t hold, 0 for none. */
    var handles: seq<nat>

    ghost var log: seq<Firing>
    ghost var disabled: set<nat>
    ghost var armed: map<nat, Armed>
    ghost var firing: nat
    ghost var ran: seq<Script>

    ghost function Now(): Queue
      reads this
    {
      Queue(clock, timers, maxTimerId, log, disabled, armed, firing)
    }

    ghost function All(): Board
      reads this
    {
      Board(clock, drifts, (set t | t in timers), maxTimerId, handles, later)
    }

    ghost predicate Valid()
      reads this
    {
      Inv(Now()) && maxTimerId > 0 && forall i | 0 <= i < |handles| :: handles[i] < maxTimerId
    }

    constructor (n: nat)
      ensures Valid() && firing == 0 && timers == [] && later == [] && log == [] && handles == seq(n, _ => 0)
    {
      clock, drifts, timers, later, maxTimerId, handles := 0, [], [], [], 1, seq(n, _ => 0);
      log, disabled, armed, firing, ran := [], {}, map[], 0, [];
    }

    /** steady_clock::now() */
    method Look() returns (now: nat)
      modifies this`clock, this`drifts
      ensures now == clock && old(clock) <= clock && (clock, drifts) == LookAt(old(clock), old(drifts))
    {
      if drifts != [] {
        clock, drifts := clock + drifts[0], drifts[1..];
      }
      now := clock;
    }

    /** std::sort, with the order of deadlines. */
    static method SortByDeadline(ts: seq<TimerEvent>) returns (us: seq<TimerEvent>)
      ensures Sorted(us) && multiset(us) == multiset(ts)
    {
      us := [];
      for i := 0 to |ts|
        invariant Sorted(us) && multiset(us) == multiset(ts[..i])
      {
        assert ts[..i + 1] == ts[..i] + [ts[i]];
        us := Inserted(us, ts[i]);
      }
      assert ts[..|ts|] == ts;
    }

    static method Inserted(ts: seq<TimerEvent>, t: TimerEvent) returns (us: seq<TimerEvent>)
      requires Sorted(ts)
      ensures Sorted(us) && multiset(us) == multiset(ts) + multiset{t}
    {
      var k := |ts|;
      while k > 0 && t.when < ts[k - 1].when
        invariant 0 <= k <= |ts|
        invariant forall j | k <= j < |ts| :: t.when < ts[j].when
      {
        k := k - 1;
      }
      us := ts[..k] + [t] + ts[k..];
      InsertSorted(ts, k, t);
      InsertAdds(ts, k, t);
    }

    method AddTimerEvent(ms: int, f: Script) returns (id: nat)
      requires Valid()
      modifies this`clock, this`drifts, this`timers, this`maxTimerId, this`armed
      ensures Valid() && Ran(old(Now()), Now(), Size(f))
      ensures id == old(maxTimerId) && maxTimerId == old(maxTimerId) + 1
      ensures (clock, drifts) == LookAt(old(clock), old(drifts))
      ensures forall t :: t in timers <==> t in old(timers) || t == TimerEvent(clock + (ms + 1) * MS, id, f)
    {
      hide Inv, Total, Size, LookAt, Sorted, Follows;
      ghost var before := Now();
      var now := Look();
      TimePasses(before, now);
      ghost var q := Now();
      id := maxTimerId;
      maxTimerId := maxTimerId + 1;
      ghost var t := NewTimer(q, ms, f);
      timers := SortByDeadline(timers + [TimerEvent(now + (ms + 1) * MS, id, f)]);
      armed := armed[id := Armed(now, ms)];
      AddRuns(q, ms, f, timers);
      PermutedMembers(timers, q.timers + [t]);
      assert Now() == Added(q, ms, timers);
      LaterClock(before, q, Now(), Size(f));
    }

    method RemoveTimer(id: nat)
      requires Valid() && id < maxTimerId
      modifies this`timers, this`disabled
      ensures Valid() && Ran(old(Now()), Now(), 0) && Now() == Removed(old(Now()), id)
      ensures forall t :: t in timers <==> t in old(timers) && t.id != id
    {
      RemoveRuns(Now(), id);
      WithoutHolds(timers, id);
      hide Inv;
      disabled := disabled + {id};
      timers := Without(timers, id);
    }

    /** handle = add_timer_event(ms, f): the new timer is there before the handle gives up the old one. */
    method ArmAt(h: nat, ms: int, f: Script)
      requires Valid() && h < |handles|
      modifies this`clock, this`drifts, this`timers, this`maxTimerId, this`armed, this`disabled, this`handles
      ensures Valid() && Ran(old(Now()), Now(), Size(f))
      ensures handles == old(handles)[h := old(maxTimerId)]
      ensures forall t :: t in timers <==>
                (t in old(timers) && (t.id == old(handles[h]) ==> t.id == 0))
                || t == TimerEvent(clock + (ms + 1) * MS, old(maxTimerId), f)
      ensures (clock, drifts) == LookAt(old(clock), old(drifts)) && maxTimerId == old(maxTimerId) + 1
    {
      hide Inv, Total, Size, Ran, LookAt;
      ghost var before := Now();
      var id := AddTimerEvent(ms, f);
      ghost var middle := Now();
      if handles[h] != 0 {
        RemoveTimer(handles[h]);
        RanThen(before, middle, Now(), Size(f), 0);
      }
      handles := handles[h := id];
    }

    /** timer_t::disable */
    method DisableAt(h: nat)
      requires Valid() && h < |handles|
      modifies this`timers, this`disabled, this`handles
      ensures Valid() && Ran(old(Now()), Now(), 0) && handles == old(handles)[h := 0]
      ensures forall t :: t in timers <==> t in old(timers) && (t.id == old(handles[h]) ==> t.id == 0)
      ensures !Live(timers, old(handles[h]))
    {
      PositiveIds(Now());
      hide Inv;
      if handles[h] != 0 {
        RemoveTimer(handles[h]);
        handles := handles[h := 0];
      }
    }

    /** to = std::move(from) */
    method MoveTo(f: nat, t: nat)
      requires Valid() && f < |handles| && t < |handles|
      modifies this`timers, this`disabled, this`handles
      ensures Valid() && Ran(old(Now()), Now(), 0)
      ensures handles == old(handles)[t := if f == t then 0 else old(handles[f])][f := 0]
      ensures forall u :: u in timers <==> u in old(timers) && (u.id == old(handles[t]) ==> u.id == 0)
    {
      DisableAt(t);
      hide Inv;
      handles := handles[t := handles[f]];
      handles := handles[f := 0];
    }

    method Execute(c: Command)
      requires Valid()
      modifies this`clock, this`drifts, this`timers, this`maxTimerId
      modifies this`armed, this`disabled, this`handles, this`later
      ensures Valid() && Ran(old(Now()), Now(), CommandCost(c)) && All() == Did(old(All()), c)
    {
      hide Inv, Ran, Total, Size, Did;
      ghost var before := All();
      match c
      case Arm(h, ms, f) => ExecuteArm(h, ms, f);
      case Disable(h) => ExecuteDisable(h);
      case Move(f, t) => ExecuteMove(f, t);
      case Later(f) =>
        RanNothing(Now());
        RanLess(Now(), Now(), CommandCost(c));
        PutsOff(before, f);
        later := later + [f];
    }

    method ExecuteArm(h: nat, ms: int, f: Script)
      requires Valid()
      modifies this`clock, this`drifts, this`timers, this`maxTimerId, this`armed, this`disabled, this`handles
      ensures Valid() && Ran(old(Now()), Now(), Size(f)) && All() == Did(old(All()), Arm(h, ms, f))
    {
      hide Inv, Ran, Total;
      RanNothing(Now());
      RanLess(Now(), Now(), Size(f));
      if h < |handles| {
        ArmAt(h, ms, f);
      }
    }

    method ExecuteDisable(h: nat)
      requires Valid()
      modifies this`timers, this`disabled, this`handles
      ensures Valid() && Ran(old(Now()), Now(), 0) && All() == Did(old(All()), Disable(h))
    {
      hide Inv, Ran, Total, Live;
      RanNothing(Now());
      if h < |handles| {
        DisableAt(h);
      }
    }

    method ExecuteMove(f: nat, t: nat)
      requires Valid()
      modifies this`timers, this`disabled, this`handles
      ensures Valid() && Ran(old(Now()), Now(), 0) && All() == Did(old(All()), Move(f, t))
    {
      hide Inv, Ran, Total, Live;
      RanNothing(Now());
      if f < |handles| && t < |handles| {
        MoveTo(f, t);
      }
    }

    /** A callback runs: all its commands, in order. */
    method Call(f: Script)
      requires Valid()
      modifies this`clock, this`drifts, this`timers, this`maxTimerId
      modifies this`armed, this`disabled, this`handles, this`later
      ensures Valid() && Ran(old(Now()), Now(), Cost(f.commands)) && All() == DidAll(old(All()), f.commands)
    {
      hide Inv, Ran, Did;
      ghost var before, start := Now(), All();
      var cs := f.commands;
      RanNothing(before);
      assert cs[..0] == [];
      for i := 0 to |cs|
        invariant Valid() && Ran(before, Now(), Cost(cs[..i])) && All() == DidAll(start, cs[..i])
      {
        ghost var middle := Now();
        Execute(cs[i]);
        RanThen(before, middle, Now(), Cost(cs[..i]), CommandCost(cs[i]));
        assert cs[..i + 1][..i] == cs[..i];
      }
      assert cs[..|cs|] == cs;
    }

    /** run_expired_timer_events */
    method RunExpiredTimerEvents()
      requires Valid() && firing == 0
      modifies this
      ensures Valid() && firing == 0 && Follows(old(Now()), Now()) && ran == old(ran) && old(log) <= log
      ensures timers == [] || !Expired(timers[0].when - clock)
      ensures later == old(later) + PutOff(log[|old(log)|..])
      ensures All() == AllRounds(old(All()), log[|old(log)|..])
    {
      hide Inv, Total, Expired, Follows, Looked, AfterFiring, Rounds, PutOff, AllRounds;
      ghost var before, start := Now(), All();
      FollowsItself(before);
      NoRound(start);
      assert log[|before.log|..] == [];
      var more := true;
      while more
        invariant Valid() && firing == 0 && Follows(before, Now()) && ran == old(ran) && before.log <= log
        invariant !more ==> timers == [] || !Expired(timers[0].when - clock)
        invariant later == old(later) + PutOff(log[|before.log|..])
        invariant All() == if more then Rounds(start, log[|before.log|..]) else AllRounds(start, log[|before.log|..])
        decreases Total(timers, 0), more
      {
        ghost var middle := Now();
        assert timers != [] ==> timers[0] in All().timers;
        more := RunOne();
        FollowsThen(before, middle, Now());
        if more {
          OneRoundMore(start, before.log, middle.log, log[|middle.log|]);
          assert log == middle.log + [log[|middle.log|]];
        } else {
          LastRound(start, log[|before.log|..]);
        }
      }
    }

    /** One round: looks at the clock, and fires the first timer if it has expired. */
    method RunOne() returns (more: bool)
      requires Valid() && firing == 0
      modifies this
      ensures Valid() && firing == 0 && ran == old(ran) && Follows(old(Now()), Now())
      ensures more ==> old(timers) != [] && Total(timers, 0) < old(Total(timers, 0))
      ensures more ==> |log| == |old(log)| + 1 && old(log) <= log && log[|old(log)|].timer == old(timers[0])
      ensures !more ==> (timers == [] || !Expired(timers[0].when - clock)) && timers == old(timers) && log == old(log)
      ensures more ==>
                && All() == AfterFiring(Looked(old(All())), old(timers[0]))
                && later == old(later) + Laters(old(timers[0]).callback.commands)
      ensures !more ==> later == old(later) && All() == if timers == [] then old(All()) else Looked(old(All()))
    {
      hide Inv, Total, Expired, Follows, AfterFiring;
      ghost var before := Now();
      FollowsItself(before);
      if timers == [] {
        return false;
      }
      var now := Look();
      TimePasses(before, now);
      ClockFollows(before, now);
      more := Expired(timers[0].when - now);
      if more {
        ghost var middle := Now();
        Fire();
        FollowsThen(before, middle, Now());
      }
    }

    /** The first timer fires, and is then removed. */
    method Fire()
      requires Valid() && firing == 0 && timers != [] && Expired(timers[0].when - clock)
      modifies this
      ensures Valid() && firing == 0 && ran == old(ran) && Total(timers, 0) < old(Total(timers, 0))
      ensures Follows(old(Now()), Now())
      ensures log == old(log) + [Firing(old(timers[0]), old(clock), old(timers), old(disabled))]
      ensures !Live(timers, old(timers[0].id))
      ensures later == old(later) + Laters(old(timers[0]).callback.commands)
      ensures All() == AfterFiring(old(All()), old(timers[0]))
    {
      hide Inv, Total, Expired, WasFired, Live, Without, Follows, DidAll, Ran;
      ghost var before := Now();
      var t := timers[0];
      LatersAreLast(All(), t.callback.commands);
      Begin();
      ghost var begun := Now();
      Call(t.callback);
      RanIn(begun, Now(), t);
      ghost var called := Now();
      Finish(t.id);
      FollowsThen(before, begun, called);
      FollowsThen(before, called, Now());
    }

    ghost method Begin()
      requires Valid() && firing == 0 && timers != [] && Expired(timers[0].when - clock)
      modifies this`log, this`firing
      ensures Valid() && Now() == Fired(old(Now())) && WasFired(log, firing) && Follows(old(Now()), Now())
      ensures Total(timers, firing) + Size(timers[0].callback) <= Total(timers, 0)
    {
      FireKeeps(Now());
      FireFollows(Now());
      PositiveIds(Now());
      TotalOfRest(timers, timers[0]);
      hide Inv, Total, WasFired;
      firing, log := timers[0].id, log + [Firing(timers[0], clock, timers, disabled)];
    }

    /** The handle that the loop had of the timer goes out of scope. */
    method Finish(id: nat)
      requires Valid() && WasFired(log, firing) && id == firing
      modifies this`timers, this`firing
      ensures Valid() && Now() == Finished(old(Now())) && Follows(old(Now()), Now())
      ensures Total(timers, 0) <= old(Total(timers, firing))
      ensures !Live(timers, old(firing))
      ensures forall t :: t in timers <==> t in old(timers) && t.id != id
    {
      FinishKeeps(Now());
      TotalWithout(timers, firing, firing);
      WithoutHolds(timers, firing);
      hide Inv, Total, WasFired;
      timers := Without(timers, id);
      firing := 0;
    }

    /** run_call_later_events: in batches, and yet in the order of a plain queue. */
    method RunCallLaterEvents()
      requires Valid()
      modifies this
      ensures Valid() && later == [] && ran == old(ran) + Fifo(old(later))
      ensures log == old(log) && firing == old(firing) && Follows(old(Now()), Now())
      ensures All() == RanAll(old(All()), ran[|old(ran)|..])
    {
      hide Inv, Follows, RanAll;
      ghost var before, start, n := Now(), All(), |ran|;
      FollowsItself(before);
      NoScript(start);
      assert ran[n..] == [];
      while later != []
        invariant Valid() && log == old(log) && firing == old(firing) && Follows(before, Now())
        invariant ran + Fifo(later) == old(ran) + Fifo(old(later)) && old(ran) <= ran
        invariant All().(later := []) == RanAll(start, ran[n..])
        decreases Weight(later)
      {
        ghost var middle, board, was := Now(), All(), ran;
        RunBatch();
        FollowsThen(before, middle, Now());
        RanAllAppend(start, was[n..], ran[|was|..]);
        RanAllSame(board, RanAll(start, was[n..]), ran[|was|..]);
        assert was[n..] + ran[|was|..] == ran[n..];
      }
      assert Fifo([]) == [] && ran + [] == ran;
    }

    /** What has been put off so far is run; what that puts off is kept for the next batch. */
    method RunBatch()
      requires Valid() && later != []
      modifies this
      ensures Valid() && log == old(log) && firing == old(firing) && Follows(old(Now()), Now())
      ensures ran + Fifo(later) == old(ran) + Fifo(old(later)) && Weight(later) < old(Weight(later))
      ensures old(ran) <= ran && All().(later := []) == RanAll(old(All()), ran[|old(ran)|..])
    {
      hide Inv, Fifo, Weight, Follows, RanAll, DidAll;
      ghost var before, start, n := Now(), All(), |ran|;
      FollowsItself(before);
      NoScript(start);
      assert ran[n..] == [];
      var callNow := later;
      later := [];
      assert callNow[0..] + later == callNow;
      for i := 0 to |callNow|
        invariant Valid() && log == old(log) && firing == old(firing) && Follows(before, Now())
        invariant ran + Fifo(callNow[i..] + later) == old(ran) + Fifo(callNow)
        invariant Weight(callNow[i..] + later) + i <= Weight(callNow)
        invariant old(ran) <= ran && All().(later := []) == RanAll(start, ran[n..])
      {
        assert callNow[i..] == [callNow[i]] + callNow[i + 1..];
        ghost var middle, board, was := Now(), All(), ran;
        RunLater(callNow[i], callNow[i + 1..]);
        FollowsThen(before, middle, Now());
        OneScriptMore(start, was[n..], board, callNow[i]);
        assert was[n..] + [callNow[i]] == ran[n..];
      }
      assert callNow[|callNow|..] + later == later;
    }

    /** One of a batch runs, before the rest of it. */
    method RunLater(f: Script, ghost rest: seq<Script>)
      requires Valid()
      modifies this
      ensures Valid() && log == old(log) && firing == old(firing) && Follows(old(Now()), Now())
      ensures ran == old(ran) + [f] && All() == DidAll(old(All()), f.commands)
      ensures ran + Fifo(rest + later) == old(ran) + Fifo([f] + rest + old(later))
      ensures Weight(rest + later) < Weight([f] + rest + old(later))
    {
      hide Inv, Fifo, Weight, Laters, Follows, Total, DidAll;
      FifoStep(f, rest, later);
      LatersAreLast(All(), f.commands);
      ran := ran + [f];
      Call(f);
    }

    /**
      * wait(), without the descriptors: what had been put off runs, then what has expired
      * fires, then what that has put off runs.
      */
    method Wait()
      requires Valid() && firing == 0
      modifies this
      ensures Valid() && firing == 0 && later == [] && Follows(old(Now()), Now())
      ensures ran == old(ran) + Fifo(old(later)) + Fifo(PutOff(log[|old(log)|..]))
      ensures var fired := log[|old(log)|..];
              All() == RanAll(AllRounds(RanAll(old(All()), Fifo(old(later))), fired), Fifo(PutOff(fired)))
    {
      hide Inv, Fifo, Expired, Follows, RanAll, AllRounds, PutOff;
      ghost var before := Now();
      RunCallLaterEvents();
      ghost var middle, first := Now(), ran;
      assert first[|old(ran)|..] == Fifo(old(later));
      RunExpiredTimerEvents();
      ghost var expired := Now();
      assert [] + PutOff(log[|old(log)|..]) == PutOff(log[|old(log)|..]);
      RunCallLaterEvents();
      assert ran[|first|..] == Fifo(PutOff(log[|old(log)|..]));
      FollowsThen(before, middle, expired);
      FollowsThen(before, expired, Now());
    }
  }

  lemma {:induction false} PositiveIds(q: Queue)
    requires Inv(q)
    ensures forall t | t in q.timers :: t.id != 0
  {}
}
