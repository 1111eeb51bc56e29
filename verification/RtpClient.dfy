/**
  * rtpclient_t (lib/rtpclient.cpp, lib/rtpclient_statemachine.cpp): the machine that tries
  * one address after the other until a peer answers on both ports, and then keeps asking
  * it for the time.
  *
  * An action of a state raises further events before it returns, and so do the slots that
  * are called while it sends. The methods here call each other in the same way; that they
  * may is what their `decreases` clauses prove, and where the chain ends is what their
  * `ensures` clauses say.
  *
  * Of the peer only the two port bits are kept. What resolving, opening and sending lead
  * to is read from three scripts, which may hold anything.
  */
module RtpClients {
  import opened IoBytes
  import opened RtpPeers

  datatype State =
    | Error
    | WaitToStart
    | PrepareNextDNS
    | ResolveNextIpPort
    | ConnectControl
    | ConnectMidi
    | AllConnected
    | DisconnectControl
    | SendCkShort
    | WaitSendCkShort
    | WaitSendCkLong
    | DisconnectBecauseCKTimeout
    | SendCkLong
    | TryConnectToAllKnownDNS

  datatype Event =
    | Started
    | NextReady
    | ResolveListExhausted
    | ConnectListExhausted
    | ResolveFailed
    | Resolved
    | ConnectFailed
    | Connected
    | SendCK
    | WaitSendCK
    | LatencyMeasured
    | Timeout
    | Connect

  /** The switch of handle_event; what it does not list leads to Error. */
  function Transition(state: State, event: Event): State {
    match (state, event)
    case (Error, Connect) => TryConnectToAllKnownDNS
    case (WaitToStart, Started) => PrepareNextDNS
    case (PrepareNextDNS, NextReady) => ResolveNextIpPort
    case (PrepareNextDNS, ResolveListExhausted) => Error
    case (ResolveNextIpPort, ConnectListExhausted) => PrepareNextDNS
    case (ResolveNextIpPort, ResolveFailed) => ResolveNextIpPort
    case (ResolveNextIpPort, Resolved) => ConnectControl
    case (ConnectControl, ConnectFailed) => ResolveNextIpPort
    case (ConnectControl, Connected) => ConnectMidi
    case (ConnectMidi, Connected) => AllConnected
    case (ConnectMidi, ConnectFailed) => DisconnectControl
    case (AllConnected, SendCK) => SendCkShort
    case (DisconnectControl, ConnectFailed) => ResolveNextIpPort
    case (SendCkShort, WaitSendCK) => WaitSendCkShort
    case (SendCkShort, LatencyMeasured) => WaitSendCkLong
    case (SendCkShort, Timeout) => DisconnectBecauseCKTimeout
    case (WaitSendCkShort, SendCK) => SendCkShort
    case (WaitSendCkLong, SendCK) => SendCkLong
    case (DisconnectBecauseCKTimeout, ConnectFailed) => ConnectControl
    case (SendCkLong, WaitSendCK) => WaitSendCkLong
    case (SendCkLong, Timeout) => DisconnectBecauseCKTimeout
    case (TryConnectToAllKnownDNS, Connect) => PrepareNextDNS
    case _ => Error
  }

  datatype Endpoint = Endpoint(hostname: string, port: string)
  type Address = string

  /** What the client's timer does when it fires. */
  datatype Timer = NoTimer | ControlTimeout | MidiTimeout | CkTimeout | NextCk | Reconnect

  /** The slot that the client has at the peer's clock signal. */
  datatype CkSlot = NoSlot | ShortSlot | LongSlot | WarnSlot

  const DISCONNECTED_NETWORK_ERROR := 135

  // ----- where a chain of events may stop, and why it has to

  /** States in which the client waits for a timer, a packet or the start. */
  predicate Stable(state: State) {
    match state
    case Error | WaitToStart | ConnectControl | ConnectMidi => true
    case SendCkShort | WaitSendCkShort | SendCkLong | WaitSendCkLong => true
    case _ => false
  }

  /** States that have an address to work with. */
  predicate NeedsAddress(state: State) {
    match state
    case Error | WaitToStart | PrepareNextDNS | ResolveNextIpPort | TryConnectToAllKnownDNS => false
    case _ => true
  }

  /** While no address is used up, a chain only goes to states of lower rank. */
  function Rank(state: State): nat {
    match state
    case DisconnectBecauseCKTimeout => 7
    case ConnectControl => 6
    case AllConnected => 6
    case ConnectMidi => 5
    case SendCkShort => 5
    case SendCkLong => 5
    case DisconnectControl => 4
    case ResolveNextIpPort => 3
    case PrepareNextDNS => 2
    case TryConnectToAllKnownDNS => 2
    case Error => 1
    case _ => 0
  }

  function Reverse(s: seq<Endpoint>): (r: seq<Endpoint>)
    ensures |r| == |s|
  {
    if s == [] then [] else Reverse(s[1..]) + [s[0]]
  }

  function Flatten(lists: seq<seq<Address>>): seq<Address> {
    if lists == [] then [] else Flatten(lists[..|lists| - 1]) + lists[|lists| - 1]
  }

  function Last<T>(s: seq<T>): T
    requires s != []
  {
    s[|s| - 1]
  }

  function ButLast<T>(s: seq<T>): seq<T>
    requires s != []
  {
    s[..|s| - 1]
  }

  lemma {:induction false} SliceOfOne<T>(s: seq<T>, i: nat)
    requires i < |s|
    ensures s[i..i + 1] == [s[i]]
  {}

  lemma {:induction false} ReverseAppend(s: seq<Endpoint>, e: Endpoint)
    ensures Reverse(s + [e]) == [e] + Reverse(s)
    decreases |s|
  {
    if s != [] {
      ReverseAppend(s[1..], e);
      assert (s + [e])[1..] == s[1..] + [e];
    }
  }

  lemma {:induction false} FlattenAppend(lists: seq<seq<Address>>, l: seq<Address>)
    ensures Flatten(lists + [l]) == Flatten(lists) + l
  {
    assert (lists + [l])[..|lists|] == lists;
  }

  // ----- the machine as a value: what the client remembers, and what it has done

  /** What has happened since all known endpoints were last put on the pending list. */
  datatype Pass = Pass(
    taken: seq<Endpoint>,       // endpoints taken from the pending ones
    owes: bool,                 // nothing has been tried yet for the last of them
    asked: seq<Endpoint>,       // endpoints that were resolved
    lists: seq<seq<Address>>,   // for each endpoint taken, the addresses to try
    from: nat,                  // where in the address list the last of these begins
    attempts: seq<Address>,     // addresses that a connection was tried to
    stale: bool,                // the pass began with an address list left over
    extra: bool)                // an endpoint has been added since

  /** Where the client is in its search for an address that answers. */
  datatype Search = Search(
    known: seq<Endpoint>,
    pending: seq<Endpoint>,
    endpoint: Endpoint,
    addresses: seq<Address>,
    at: nat,
    pass: Pass)

  datatype Machine = Machine(
    state: State,
    search: Search,
    timer: Timer,
    ckCount: byte,
    controlSlot: nat,
    midiSlot: nat,
    nextSlot: nat,
    ckSlot: CkSlot,
    clean: bool,
    timely: bool,
    shortSent: nat,
    longWaits: nat)

  function Left(addresses: seq<Address>, at: nat): nat {
    if at < |addresses| then |addresses| - at else 0
  }

  function Listeners(controlSlot: nat, midiSlot: nat): nat {
    (if controlSlot != 0 then 1 else 0) + (if midiSlot != 0 then 1 else 0)
  }

  /** Nothing has been resolved for the state that is about to resolve. */
  function Unresolved(target: State, addresses: seq<Address>): nat {
    if target == ResolveNextIpPort && addresses == [] then 1 else 0
  }

  function Handled(p: Pass): int {
    |p.taken| - if p.owes then 1 else 0
  }

  /**
    * The pass so far. Endpoints are taken last-added first. Each is resolved and all its
    * addresses are tried in order, each once, before the next is taken; only when the pass
    * began with a list left over, the rest of that list takes the place of the addresses of
    * the first endpoint, which is then never resolved.
    */
  ghost predicate PassLog(s: Search) {
    && (if s.addresses == [] then s.at == 0 else s.at < |s.addresses|)
    && EndpointLog(s) && AddressLog(s)
  }

  ghost predicate EndpointLog(s: Search) {
    var p := s.pass;
    && (p.owes ==> p.taken != [] && s.endpoint == Last(p.taken))
    && (!p.extra ==> s.known == s.pending + Reverse(p.taken))
    && (p.owes ==> (s.addresses != [] <==> p.stale && |p.taken| == 1))
    && |p.lists| == Handled(p)
    && p.asked == p.taken[if p.stale && Handled(p) >= 1 then 1 else 0..Handled(p)]
  }

  ghost predicate AddressLog(s: Search) {
    var p := s.pass;
    if p.lists == [] || s.addresses == [] then p.attempts == Flatten(p.lists)
    else
      && p.from <= s.at < |s.addresses| && s.addresses[p.from..] == Last(p.lists)
      && p.attempts == Flatten(ButLast(p.lists)) + s.addresses[p.from..s.at + 1]
  }

  /** The states on the way to an address; a slot of an attempt that was given up may still be there. */
  predicate Searching(state: State) {
    match state
    case Error | PrepareNextDNS | ResolveNextIpPort | TryConnectToAllKnownDNS => true
    case _ => false
  }

  /** As long as no MIDI-port attempt has timed out, each slot is there in its own state only, or while searching. */
  ghost predicate Wired(m: Machine) {
    && m.controlSlot < m.nextSlot && m.midiSlot < m.nextSlot && (m.controlSlot != 0 ==> m.controlSlot != m.midiSlot)
    && (m.timely ==>
          && (m.controlSlot != 0 ==> Searching(m.state) || m.state == ConnectControl)
          && (m.midiSlot != 0 ==> m.state == ConnectMidi || m.state == Error)
          && (m.controlSlot == 0 || m.midiSlot == 0))
  }

  /** There is nothing more to try. */
  ghost predicate Exhausted(s: Search) {
    !s.pass.owes && (!s.pass.extra ==> s.pending == [])
  }

  ghost predicate Valid(m: Machine) {
    && (NeedsAddress(m.state) ==> m.search.addresses != [] && m.search.pass.taken != [])
    && Wired(m) && PassLog(m.search) && (m.clean ==> !m.search.pass.stale)
    && (m.state == Error ==>
          && (m.clean ==> m.search.addresses == [])
          && (m.search.addresses == [] ==> Exhausted(m.search)))
    && (m.state == WaitToStart ==>
          && m.controlSlot == 0 && m.midiSlot == 0 && m.ckSlot == NoSlot && m.timer == NoTimer
          && m.search.known == m.search.pending && m.search.addresses == [])
  }

  /** On every connection six short-period requests come before the first long wait, and none after it. */
  ghost predicate CkLog(m: Machine) {
    && (m.state == SendCkShort ==> m.ckCount == m.shortSent <= 6 && m.longWaits == 0 && m.ckSlot == ShortSlot)
    && (m.state == WaitSendCkShort ==> m.ckCount == m.shortSent < 6 && m.longWaits == 0)
    && ((m.state.WaitSendCkLong? || m.state.SendCkLong?) ==> m.shortSent == 6)
    && (m.state == SendCkLong ==> m.ckSlot == LongSlot)
    && ((m.state.SendCkShort? || m.state.SendCkLong?) ==> m.timer == CkTimeout)
    && ((m.state.WaitSendCkShort? || m.state.WaitSendCkLong?) ==> m.timer == NextCk)
  }

  /** A chain of events has come to its end: the client waits, with a timer armed. */
  ghost predicate Settled(m: Machine) {
    && Valid(m) && CkLog(m) && Stable(m.state) && m.state != WaitToStart && m.timer != NoTimer
    && (m.timer == ControlTimeout ==> m.state == ConnectControl) && (m.timer == MidiTimeout ==> m.state == ConnectMidi)
    && (m.timely ==> Listens(m))
  }

  /** A client that waits for an answer listens for it, with the timer of that port armed. */
  ghost predicate Listens(m: Machine) {
    && (m.state == ConnectControl ==> m.controlSlot != 0 && m.timer == ControlTimeout)
    && (m.state == ConnectMidi ==> m.midiSlot != 0 && m.timer == MidiTimeout)
    && (m.state == Error ==> m.midiSlot == 0)
  }

  /** What the target state needs to find when it is entered. */
  ghost predicate Ready(m: Machine, target: State) {
    && (NeedsAddress(target) ==> m.search.addresses != [] && m.search.pass.taken != [])
    && ((target.SendCkShort? || target.WaitSendCkShort?) ==> m.ckCount == m.shortSent < 6 && m.longWaits == 0)
    && ((target.WaitSendCkLong? || target.SendCkLong?) ==> m.shortSent == 6)
    && (target == PrepareNextDNS ==>
          && !m.search.pass.owes
          && (m.search.addresses != [] <==> m.search.pass.stale && m.search.pass.taken == []))
    && (target == ResolveNextIpPort ==> m.search.pass.taken != [] && (m.search.addresses == [] ==> m.search.pass.owes))
    && (m.timely && target != Error ==> m.midiSlot == 0)
    && (m.timely && !Searching(target) && target != ConnectControl ==> m.controlSlot == 0)
    && (target == Error && m.search.addresses == [] ==> Exhausted(m.search))
  }

  /** The state has been set, its action has not begun. */
  ghost predicate Entered(m: Machine, target: State) {
    m.state == target && Valid(m) && Ready(m, target)
  }

  /** An address or an endpoint has been used up between `b` and `a`. */
  ghost predicate Less(a: Search, b: Search) {
    || |a.pending| < |b.pending|
    || (|a.pending| == |b.pending| && Left(a.addresses, a.at) < Left(b.addresses, b.at))
  }

  /** No endpoint or address has come back, and slots only in exchange for one; `u` is 1 when one is to be resolved. */
  ghost predicate Within(a: Machine, b: Machine, u: nat, n: nat) {
    || Less(a.search, b.search)
    || (|a.search.pending| == |b.search.pending|
        && (u == 1
            || (Left(a.search.addresses, a.search.at) == Left(b.search.addresses, b.search.at)
                && Listeners(a.controlSlot, a.midiSlot) <= n)))
  }

  /** It is still the same pass. */
  ghost predicate Kept(a: Machine, b: Machine) {
    && SamePass(a.search, b.search) && b.search.pass.taken <= a.search.pass.taken
    && (a.clean ==> b.clean) && a.timely == b.timely
  }

  ghost predicate SamePass(a: Search, b: Search) {
    a.known == b.known && a.pass.stale == b.pass.stale && a.pass.extra == b.pass.extra
  }

  function NewPass(s: Search): Search {
    s.(pending := s.known, pass := Pass([], false, [], [], 0, [], s.addresses != [], false))
  }

  /** What a chain that begins with `target` leaves behind. */
  ghost predicate After(b: Machine, target: State, a: Machine) {
    && Settled(a) && a.timely == b.timely
    && (target == TryConnectToAllKnownDNS ==> SamePass(a.search, NewPass(b.search)))
    && (target != TryConnectToAllKnownDNS ==>
          Kept(a, b) && Within(a, b, Unresolved(target, b.search.addresses), Listeners(b.controlSlot, b.midiSlot) + 1))
    && (target == ResolveNextIpPort && b.search.addresses != [] ==> Less(a.search, b.search))
    && (target == PrepareNextDNS && b.search.pending != [] ==>
          b.search.pass.taken + [Last(b.search.pending)] <= a.search.pass.taken)
    && (Spent(b.search, target) ==>
          a.state == Error && a.timer == Reconnect && a.search == Found(b.search, target, SILENT))
    && ((target.Error? || target.WaitSendCkShort? || target.WaitSendCkLong?) ==> a.state == target)
    && (target == Error ==>
          && a.search == b.search && a.timer == Reconnect
          && Listeners(a.controlSlot, a.midiSlot) <= Listeners(b.controlSlot, b.midiSlot))
  }

  /**
    * What a call that may raise a status does to the machine: nothing, or a chain that has
    * settled. After a failure a client that had nothing more to try is in Error.
    */
  ghost predicate Came(b: Machine, a: Machine, fired: bool, failed: bool) {
    && (!fired ==> a == b)
    && (fired ==>
          && Settled(a) && Kept(a, b) && b.state != WaitToStart
          && Within(a, b, 0, Listeners(b.controlSlot, b.midiSlot)) && Listeners(b.controlSlot, b.midiSlot) > 0)
    && (fired && failed && b.state == DisconnectControl ==> Less(a.search, b.search))
    && (fired && failed && Transition(b.state, ConnectFailed) == Error ==>
          a.state == Error && a.timer == Reconnect && a.search == b.search)
  }

  /** A failure may be raised here: `r` bounds the rank of the state that it leads to. */
  ghost predicate Fits(m: Machine, failed: bool, r: nat) {
    && Valid(m)
    && (NeedsAddress(m.state) || (m.state.Error? || m.state.WaitToStart?))
    && Rank(Transition(m.state, ConnectFailed)) <= r
    && (NeedsAddress(m.state) ==> r >= 4)
    && (failed || r == 9)
  }

  /** What is still to come from outside: what names resolve to, which ports open, which packets leave. */
  datatype Env = Env(answers: seq<seq<Address>>, opens: seq<bool>, sends: seq<bool>)

  const SILENT := Env([], [], [])

  /** Packets as they are handed out. */
  datatype Out = Invitation(port: Port) | Answer(port: Port) | Goodbye(port: Port) | ClockRequest

  function Goodbyes(status: Status): seq<Out> {
    (if HasBit(status, MidiPort) then [Goodbye(MidiPort)] else [])
    + if HasBit(status, ControlPort) then [Goodbye(ControlPort)] else []
  }

  function FirstOf<T>(s: seq<T>): seq<T> {
    if s == [] then [] else s[..1]
  }

  /** What such a chain has handed out when it has landed. */
  function SentOn(target: State, status: Status, env: Env): seq<Out> {
    (match target
     case DisconnectBecauseCKTimeout => Goodbyes(status)
     case DisconnectControl => [Goodbye(ControlPort)]
     case ConnectMidi => if env.opens == [] then [] else [Goodbye(ControlPort)]
     case _ => [])
    + match Landing(target, env)
      case ConnectControl => [Invitation(ControlPort)]
      case ConnectMidi => [Invitation(MidiPort)]
      case SendCkShort | SendCkLong => [ClockRequest]
      case _ => []
  }

  /** Two states whose chains hand out the same and leave the same status. */
  ghost predicate Same(s: State, b: Env, t: State, a: Env) {
    && (forall status :: SentOn(s, status, b) == SentOn(t, status, a))
    && (forall status :: Calm(s, status, b) == Calm(t, status, a))
  }

  /** Where a chain ends when packets leave and there is an address. */
  function Landing(target: State, env: Env): State {
    match target
    case TryConnectToAllKnownDNS | PrepareNextDNS | ResolveNextIpPort => ConnectControl
    case DisconnectControl | DisconnectBecauseCKTimeout => ConnectControl
    case ConnectMidi => if env.opens == [] then ConnectMidi else ConnectControl
    case AllConnected => SendCkShort
    case _ => target
  }

  /** And what it leaves behind, beside what every chain does. */
  ghost predicate Landed(b: Machine, target: State, env: Env, a: Machine) {
    && a.state == Landing(target, env) && a.search == Found(b.search, target, env)
    && (Landing(target, env) == ConnectControl || target == ConnectMidi ==> a.ckSlot == b.ckSlot)
    && (target == AllConnected ==> a.shortSent == 1)
    && (target == SendCkShort ==> a.shortSent == b.shortSent + 1)
    && ((target.WaitSendCkShort? || target.WaitSendCkLong?) ==> a.shortSent == b.shortSent)
  }

  /** The search as such a chain leaves it: at the address that comes next, or after those whose ports do not open. */
  function Found(s: Search, target: State, env: Env): Search
    decreases if target == TryConnectToAllKnownDNS then 2 else if target == PrepareNextDNS then 1 else 0
  {
    match target
    case ConnectControl | DisconnectBecauseCKTimeout => Skip(s, |env.opens|)
    case ConnectMidi => if env.opens == [] then s else Skip(Advance(s, []), |env.opens| - 1)
    case ResolveNextIpPort | DisconnectControl =>
      Skip(Advance(s, if s.addresses == [] && env.answers != [] then env.answers[0] else []), |env.opens|)
    case PrepareNextDNS => if s.pending == [] then s else Found(Take(s), ResolveNextIpPort, env)
    case TryConnectToAllKnownDNS => Found(NewPass(s), PrepareNextDNS, env)
    case _ => s
  }

  /** The search after `k` addresses of the list have been given up. */
  function Skip(s: Search, k: nat): Search
    decreases k
  {
    if k == 0 then s else Skip(Advance(s, []), k - 1)
  }

  /** The list at hand is at its end, and no endpoint is left to take. */
  predicate Spent(s: Search, target: State) {
    match target
    case ResolveNextIpPort => AtLast(s) && s.pending == []
    case PrepareNextDNS => s.pending == [] || (AtLast(s) && |s.pending| == 1)
    case TryConnectToAllKnownDNS => s.known == [] || (AtLast(s) && |s.known| == 1)
    case _ => false
  }

  predicate AtLast(s: Search) {
    s.addresses != [] && s.at + 1 == |s.addresses|
  }

  /** The status that it leaves. */
  function Calm(target: State, status: Status, env: Env): Status {
    if target == DisconnectBecauseCKTimeout then NOT_CONNECTED
    else if target == DisconnectControl || (target == ConnectMidi && env.opens != []) then ClearBit(status, ControlPort)
    else status
  }

  /** An address comes next, from the list or from the resolver, and `k` more after it. */
  predicate HasNext(s: Search, answers: seq<seq<Address>>, k: nat) {
    if s.addresses == [] then answers != [] && k < |answers[0]| else s.at + 1 + k < |s.addresses|
  }

  /**
    * The states from which a chain lands when nothing else goes wrong outside than that some
    * ports do not open, and enough addresses are left.
    */
  predicate Lands(m: Machine, target: State, env: Env) {
    && env.sends == [] && (forall i | 0 <= i < |env.opens| :: !env.opens[i])
    && match target
       case ConnectControl => m.search.at + |env.opens| < |m.search.addresses|
       case ConnectMidi => env.opens == [] || (m.timely && HasNext(m.search, env.answers, |env.opens| - 1))
       case DisconnectControl => m.timely && HasNext(m.search, env.answers, |env.opens|)
       case AllConnected | SendCkShort | SendCkLong | WaitSendCkShort | WaitSendCkLong => env.opens == []
       case DisconnectBecauseCKTimeout => m.timely && m.search.at + |env.opens| < |m.search.addresses|
       case ResolveNextIpPort => HasNext(m.search, env.answers, |env.opens|)
       case PrepareNextDNS => m.search.pending != [] && HasNext(m.search, env.answers, |env.opens|)
       case TryConnectToAllKnownDNS => m.search.known != [] && HasNext(m.search, env.answers, |env.opens|)
       case _ => false
  }

  /** The states in which goodbye is said. */
  predicate Leaving(state: State) {
    match state
    case Error | DisconnectControl | DisconnectBecauseCKTimeout => true
    case _ => false
  }

  /** The states that an answer on a port leads to. */
  predicate Attempts(target: State) {
    target == ConnectMidi || target == AllConnected
  }

  // ----- entering a state

  function Enter(m: Machine, target: State): Machine {
    m.(state := target, clean := m.clean && !(target == Error && m.search.addresses != []))
  }

  lemma {:induction false} EnterKeeps(m: Machine, target: State)
    requires Valid(m) && Ready(m, target) && target != WaitToStart
    ensures Entered(Enter(m, target), target)
  {
    hide PassLog;
  }

  lemma {:induction false} EnteredIn(b: Machine, target: State)
    requires Entered(b, target)
    ensures b.state == target && Valid(b)
  {}

  lemma {:induction false} AfterEntering(b: Machine, target: State, a: Machine)
    requires After(Enter(b, target), target, a)
    ensures After(b, target, a)
  {
    hide PassLog;
  }

  /** After a failed attempt there is an address list to go on with, or nothing. */
  lemma {:induction false} FailedIsReady(m: Machine)
    requires Valid(m) && (NeedsAddress(m.state) || m.state == Error)
    requires m.timely && m.state != ConnectControl && m.state != Error ==> m.controlSlot == 0 && m.midiSlot == 0
    ensures Ready(m, Transition(m.state, ConnectFailed)) && !Attempts(Transition(m.state, ConnectFailed))
    ensures Unresolved(Transition(m.state, ConnectFailed), m.search.addresses) == 0
    ensures m.state != DisconnectBecauseCKTimeout ==> Rank(Transition(m.state, ConnectFailed)) <= 4
  {
    hide PassLog;
  }

  lemma {:induction false} LandsEntering(b: Machine, target: State, env: Env)
    ensures Lands(Enter(b, target), target, env) == Lands(b, target, env)
  {}

  lemma {:induction false} LandedEntering(b: Machine, target: State, env: Env, a: Machine)
    requires Landed(Enter(b, target), target, env, a)
    ensures Landed(b, target, env, a)
  {
    hide Found;
  }

  // ----- the actions, one by one

  /** state_error, once disconnect() is through. */
  lemma {:induction false} ErrorSettles(b: Machine, m: Machine, fired: bool)
    requires Entered(b, Error) && Came(b, m, fired, true) && (m.timely ==> m.midiSlot == 0)
    ensures After(b, Error, m.(timer := Reconnect))
  {
    hide PassLog;
  }

  function Begin(m: Machine): Machine {
    m.(search := NewPass(m.search), clean := m.search.addresses == [])
  }

  lemma {:induction false} NewPassIsReady(m: Machine)
    requires Entered(m, TryConnectToAllKnownDNS) || (Valid(m) && m.state.WaitToStart?)
    ensures Valid(Begin(m)) && Ready(Begin(m), PrepareNextDNS)
  {
    assert m.search.known == m.search.known + Reverse([]);
  }

  lemma {:induction false} NewPassSettles(b: Machine, a: Machine)
    requires After(Begin(b), PrepareNextDNS, a)
    ensures After(b, TryConnectToAllKnownDNS, a)
  {
    hide PassLog, CkLog;
  }

  lemma {:induction false} NewPassLands(b: Machine, env: Env)
    requires Lands(b, TryConnectToAllKnownDNS, env)
    ensures Lands(Begin(b), PrepareNextDNS, env)
    ensures Same(TryConnectToAllKnownDNS, env, PrepareNextDNS, env)
  {
    hide Take, Advance;
  }

  lemma {:induction false} NewPassLanded(b: Machine, env: Env, a: Machine)
    requires Landed(Begin(b), PrepareNextDNS, env, a)
    ensures Landed(b, TryConnectToAllKnownDNS, env, a)
  {
    hide Take, Advance;
  }

  /** state_prepare_next_dns: nothing is pending. */
  lemma {:induction false} NothingPending(b: Machine)
    requires Entered(b, PrepareNextDNS) && b.search.pending == []
    ensures Ready(b, Error)
  {
    hide PassLog;
  }

  lemma {:induction false} NothingPendingSettles(b: Machine, a: Machine)
    requires After(b, Error, a) && b.search.pending == []
    ensures After(b, PrepareNextDNS, a)
  {
    hide PassLog, CkLog;
  }

  /** state_prepare_next_dns: the last endpoint is taken. */
  function Take(s: Search): Search
    requires s.pending != []
  {
    s.(endpoint := Last(s.pending), pending := ButLast(s.pending),
       pass := s.pass.(taken := s.pass.taken + [Last(s.pending)], owes := true))
  }

  lemma {:induction false} TakeKeepsLog(s: Search)
    requires PassLog(s) && s.pending != []
    requires !s.pass.owes && (s.addresses != [] <==> s.pass.stale && s.pass.taken == [])
    ensures PassLog(Take(s))
  {
    var p, q := s.pass, Take(s).pass;
    ReverseAppend(p.taken, Last(s.pending));
    assert s.pending == ButLast(s.pending) + [Last(s.pending)];
    assert q.taken[..|p.taken|] == p.taken;
  }

  lemma {:induction false} TakeOwes(s: Search)
    requires s.pending != []
    ensures var t := Take(s);
            t.pass.taken != [] && t.pass.owes && t.pass.stale == s.pass.stale && t.addresses == s.addresses
  {}

  /** The search goes on, nothing else changes. */
  lemma {:induction false} SearchOn(b: Machine, s: Search)
    requires Valid(b) && (b.state == PrepareNextDNS || b.state == ResolveNextIpPort)
    requires PassLog(s) && s.pass.stale == b.search.pass.stale
    ensures Valid(b.(search := s))
  {
    hide PassLog;
  }

  lemma {:induction false} TakeIsReady(b: Machine)
    requires Entered(b, PrepareNextDNS) && b.search.pending != []
    ensures var m := b.(search := Take(b.search)); Valid(m) && Ready(m, ResolveNextIpPort)
  {
    TakeKeepsLog(b.search);
    TakeOwes(b.search);
    hide PassLog, Take;
    SearchOn(b, Take(b.search));
    hide Valid;
  }

  lemma {:induction false} TakeSettles(b: Machine, a: Machine)
    requires b.search.pending != [] && After(b.(search := Take(b.search)), ResolveNextIpPort, a)
    ensures After(b, PrepareNextDNS, a)
  {
    hide PassLog, CkLog;
  }

  lemma {:induction false} TakeLands(b: Machine, env: Env)
    requires Lands(b, PrepareNextDNS, env)
    ensures b.search.pending != []
    ensures Lands(b.(search := Take(b.search)), ResolveNextIpPort, env)
    ensures forall a | Landed(b.(search := Take(b.search)), ResolveNextIpPort, env, a) ::
              Landed(b, PrepareNextDNS, env, a)
    ensures Same(PrepareNextDNS, env, ResolveNextIpPort, env)
  {
    hide Advance;
  }

  /** state_resolve_next_ip_port: the endpoint is resolved, or the next address of its list is taken. */
  function Advance(s: Search, found: seq<Address>): Search {
    var addresses := if s.addresses == [] then found else s.addresses;
    var at := if s.addresses == [] then 0 else s.at + 1;
    var p :=
      if s.addresses == [] then
        s.pass.(owes := false, asked := s.pass.asked + [s.endpoint], lists := s.pass.lists + [found], from := 0)
      else if s.pass.owes && at <= |addresses| then
        s.pass.(owes := false, lists := s.pass.lists + [addresses[at..]], from := at)
      else s.pass;
    if at < |addresses| then
      s.(addresses := addresses, at := at, pass := p.(attempts := p.attempts + [addresses[at]]))
    else s.(addresses := [], at := 0, pass := p)
  }

  lemma {:induction false} AskedNext(p: Pass, x: nat, e: Endpoint)
    requires p.taken != [] && e == Last(p.taken) && x <= |p.taken| - 1 && p.asked == p.taken[x..|p.taken| - 1]
    ensures p.asked + [e] == p.taken[x..|p.taken|]
  {
    assert p.taken[x..|p.taken|] == p.taken[x..|p.taken| - 1] + [Last(p.taken)];
  }

  lemma {:induction false} ResolveKeepsLog(s: Search, found: seq<Address>)
    requires PassLog(s) && s.addresses == [] && s.pass.owes
    ensures PassLog(Advance(s, found))
  {
    var p, q := s.pass, Advance(s, found).pass;
    FlattenAppend(p.lists, found);
    assert ButLast(q.lists) == p.lists;
    AskedNext(p, if p.stale then 1 else 0, s.endpoint);
    assert found != [] ==> found[..1] == [found[0]];
  }

  lemma {:induction false} StaleKeepsLog(s: Search)
    requires PassLog(s) && s.addresses != [] && s.pass.owes
    ensures PassLog(Advance(s, []))
  {
    assert s.pass.lists == [];
    assert AddressLog(Advance(s, [])) by {
      StaleBeginsList(s);
    }
    hide AddressLog, Flatten;
  }

  lemma {:induction false} StaleAdvance(s: Search)
    requires s.at < |s.addresses| && s.pass.owes && s.pass.lists == [] && s.pass.attempts == []
    ensures var t, n := Advance(s, []), s.at + 1;
            && t.pass.lists == [s.addresses[n..]]
            && (n == |s.addresses| ==> t.addresses == [] && t.pass.attempts == [])
            && (n < |s.addresses| ==>
                  && t.addresses == s.addresses && t.at == t.pass.from == n
                  && t.pass.attempts == [s.addresses[n]])
  {}

  lemma {:induction false} StaleBeginsList(s: Search)
    requires AddressLog(s) && s.at < |s.addresses| && s.pass.owes && s.pass.lists == []
    ensures AddressLog(Advance(s, []))
  {
    var n := s.at + 1;
    var rest := s.addresses[n..];
    assert s.pass.attempts == [];
    StaleAdvance(s);
    hide Advance;
    FlattenAppend([], rest);
    assert Flatten([]) == [] && [] + [rest] == [rest];
    hide Flatten;
    assert ButLast([rest]) == [];
    if n < |s.addresses| {
      SliceOfOne(s.addresses, n);
      assert [] + [s.addresses[n]] == [s.addresses[n]];
    }
  }

  lemma {:induction false} NextKeepsLog(s: Search)
    requires PassLog(s) && s.addresses != [] && !s.pass.owes && s.pass.taken != []
    ensures PassLog(Advance(s, []))
  {
    assert AddressLog(Advance(s, [])) by {
      NextInList(s);
    }
    hide AddressLog, Flatten, Reverse;
  }

  lemma {:induction false} NextInList(s: Search)
    requires AddressLog(s) && s.at < |s.addresses| && !s.pass.owes && s.pass.lists != []
    ensures AddressLog(Advance(s, []))
  {
    var p, n := s.pass, s.at + 1;
    hide Flatten;
    if n < |s.addresses| {
      assert s.addresses[p.from..n + 1] == s.addresses[p.from..n] + [s.addresses[n]];
    } else {
      assert p.lists == ButLast(p.lists) + [Last(p.lists)];
      FlattenAppend(ButLast(p.lists), Last(p.lists));
      assert s.addresses[p.from..n] == s.addresses[p.from..];
    }
  }

  lemma {:induction false} EnteredAt(b: Machine)
    requires Entered(b, ResolveNextIpPort)
    ensures b.search.addresses != [] ==> b.search.at < |b.search.addresses|
    ensures b.search.pass.taken != [] && (b.search.addresses == [] ==> b.search.pass.owes) && PassLog(b.search)
  {}

  /** What moving on makes of the search: nothing is owed, and an address is used up where there was a list. */
  ghost predicate Moved(s: Search, t: Search) {
    && t.pending == s.pending && SamePass(t, s) && t.pass.taken == s.pass.taken && !t.pass.owes
    && (s.addresses != [] ==> Left(t.addresses, t.at) < Left(s.addresses, s.at))
    && (Spent(s, ResolveNextIpPort) ==>
          t.addresses == [] && Found(t, PrepareNextDNS, SILENT) == Found(s, ResolveNextIpPort, SILENT))
  }

  lemma {:induction false} AdvanceMoves(s: Search, found: seq<Address>)
    requires s.addresses != [] ==> s.at < |s.addresses|
    ensures Moved(s, Advance(s, found))
  {}

  lemma {:induction false} MovedUsesUp(s: Search, t: Search)
    requires Moved(s, t)
    ensures t.pending == s.pending && (s.addresses != [] ==> Left(t.addresses, t.at) < Left(s.addresses, s.at))
  {
    hide Found;
  }

  lemma {:induction false} MovedIsReady(b: Machine, t: Search)
    requires Entered(b, ResolveNextIpPort) && Moved(b.search, t) && PassLog(t)
    ensures var m := b.(search := t);
            && Valid(m) && m.state == ResolveNextIpPort
            && Ready(m, if t.addresses != [] then ConnectControl else PrepareNextDNS)
  {
    hide PassLog, Found, Spent;
  }

  lemma {:induction false} MovedSettles(b: Machine, t: Search, a: Machine)
    requires Moved(b.search, t)
    requires After(b.(search := t), if t.addresses != [] then ConnectControl else PrepareNextDNS, a)
    ensures After(b, ResolveNextIpPort, a)
  {
    hide PassLog, CkLog, Settled, Found;
  }

  lemma {:induction false} SureAnswer(b: Machine, env: Env)
    requires Lands(b, ResolveNextIpPort, env)
    ensures b.search.addresses == [] ==> env.answers != []
  {}

  lemma {:induction false} RequestLands(m: Machine, env: Env)
    requires Lands(m, AllConnected, env)
    ensures Lands(Restart(m), SendCkShort, env)
    ensures Same(AllConnected, env, SendCkShort, env)
  {}

  lemma {:induction false} AdvanceLands(b: Machine, found: seq<Address>, env: Env, rest: Env)
    requires Lands(b, ResolveNextIpPort, env) && rest == env.(answers := rest.answers)
    requires if b.search.addresses == [] then env.answers != [] && found == env.answers[0] else found == []
    ensures Advance(b.search, found).addresses != []
    ensures Lands(b.(search := Advance(b.search, found)), ConnectControl, rest)
    ensures forall a | Landed(b.(search := Advance(b.search, found)), ConnectControl, rest, a) ::
              Landed(b, ResolveNextIpPort, env, a)
    ensures Same(ResolveNextIpPort, env, ConnectControl, rest)
  {
    hide Skip;
  }

  /** Where every control port that is asked for refuses, one that opens is past the refusals. */
  lemma {:induction false} SureOpens(b: Machine, env: Env)
    ensures Lands(b, ConnectControl, env) && (env.opens == [] || env.opens[0]) ==> env.opens == env.sends == []
    ensures forall status :: Calm(ConnectControl, status, env) == status
    ensures forall status :: SentOn(ConnectControl, status, env) == [Invitation(ControlPort)]
  {}

  lemma {:induction false} SureMidiOpens(b: Machine, env: Env)
    ensures Lands(b, ConnectMidi, env) && (env.opens == [] || env.opens[0]) ==> env.opens == env.sends == []
    ensures forall status | env.opens == [] :: Calm(ConnectMidi, status, env) == status
    ensures forall status | env.opens == [] :: SentOn(ConnectMidi, status, env) == [Invitation(MidiPort)]
  {}

  /** A MIDI port that does not open: the control port is left, and the next address is on. */
  lemma {:induction false} RefusedMidiLands(b: Machine, env: Env, rest: Env)
    requires Entered(b, ConnectMidi) && Lands(b, ConnectMidi, env)
    requires env.opens != [] && rest == env.(opens := env.opens[1..])
    ensures Lands(b.(timer := NoTimer), DisconnectControl, rest)
    ensures forall a | Landed(b.(timer := NoTimer), DisconnectControl, rest, a) :: Landed(b, ConnectMidi, env, a)
    ensures Same(ConnectMidi, env, DisconnectControl, rest)
  {
    hide PassLog, Wired, Ready, Skip;
  }

  /** A client that listens on no port hears nothing of its goodbye. */
  lemma {:induction false} DisconnectIsQuiet(b: Machine, m: Machine, fired: bool)
    requires Entered(b, DisconnectControl) && Came(b.(timer := NoTimer), m, fired, true) && b.timely
    ensures !fired && m == b.(timer := NoTimer)
  {
    hide PassLog;
  }

  lemma {:induction false} DisconnectLands(b: Machine, env: Env, status: Status)
    requires Lands(b, DisconnectControl, env)
    ensures b.timely && env.sends == [] && Lands(b.(timer := NoTimer), ResolveNextIpPort, env)
    ensures forall a | Landed(b.(timer := NoTimer), ResolveNextIpPort, env, a) :: Landed(b, DisconnectControl, env, a)
    ensures var left := ClearBit(status, ControlPort);
            && Calm(DisconnectControl, status, env) == Calm(ResolveNextIpPort, left, env)
            && SentOn(DisconnectControl, status, env) == [Goodbye(ControlPort)] + SentOn(ResolveNextIpPort, left, env)
  {
    hide Skip, Advance;
  }

  lemma {:induction false} SureRequest(b: Machine, env: Env)
    ensures Lands(b, SendCkShort, env) ==> env.opens == env.sends == []
  {}

  lemma {:induction false} SureLongRequest(b: Machine, env: Env)
    ensures Lands(b, SendCkLong, env) ==> env.opens == env.sends == []
  {}

  /** What is handed out when an attempt fails. */
  lemma {:induction false} FailureSends(status: Status, env: Env)
    ensures SentOn(ResolveNextIpPort, status, env) == [Invitation(ControlPort)]
    ensures SentOn(DisconnectControl, status, env) == [Goodbye(ControlPort), Invitation(ControlPort)]
    ensures Calm(ResolveNextIpPort, status, env) == status
    ensures Calm(DisconnectControl, status, env) == ClearBit(status, ControlPort)
  {}

  lemma {:induction false} LandsQuietly(b: Machine, target: State, env: Env)
    ensures Lands(b, target, env) ==> env.sends == []
  {}

  /** After a clock timeout the same address is asked. */
  lemma {:induction false} SureAgain(b: Machine, env: Env, status: Status)
    requires Lands(b, DisconnectBecauseCKTimeout, env)
    ensures b.timely && env.sends == [] && Lands(b, ConnectControl, env)
    ensures Calm(DisconnectBecauseCKTimeout, status, env) == Calm(ConnectControl, NOT_CONNECTED, env)
    ensures SentOn(DisconnectBecauseCKTimeout, status, env)
         == Goodbyes(status) + SentOn(ConnectControl, NOT_CONNECTED, env)
  {}

  /** A control port that does not open: the next address is on. */
  lemma {:induction false} RefusedLands(b: Machine, env: Env, rest: Env)
    requires Entered(b, ConnectControl) && Lands(b, ConnectControl, env)
    requires env.opens != [] && rest == env.(opens := env.opens[1..])
    ensures Lands(b, ResolveNextIpPort, rest)
    ensures forall a | Landed(b, ResolveNextIpPort, rest, a) :: Landed(b, ConnectControl, env, a)
    ensures Same(ConnectControl, env, ResolveNextIpPort, rest)
  {
    hide Valid;
  }

  /** A port could not be opened: the attempt has failed before it began. */
  lemma {:induction false} FailureIsReady(b: Machine, target: State, timer: Timer)
    requires Entered(b, target) && (target.ConnectControl? || target.ConnectMidi?)
    ensures var m, t := b.(timer := timer), Transition(target, ConnectFailed);
            && Valid(m) && Ready(m, t) && b.state == target && !Attempts(t)
            && Unresolved(t, m.search.addresses) == 0 && Rank(t) < Rank(target) && t != TryConnectToAllKnownDNS
  {
    hide PassLog;
  }

  lemma {:induction false} FailureSettles(b: Machine, target: State, timer: Timer, a: Machine)
    requires Entered(b, target) && (target.ConnectControl? || target.ConnectMidi?)
    requires After(b.(timer := timer), Transition(target, ConnectFailed), a)
    ensures After(b, target, a)
  {
    hide PassLog;
  }

  /** An action that arms a timer and sends: nothing came of it, or the failure has been dealt with. */
  lemma {:induction false} SendingSettles(b: Machine, target: State, m: Machine, a: Machine, fired: bool)
    requires Settled(m) && Came(m, a, fired, true)
    requires (target.ConnectControl? || target.ConnectMidi? || target.SendCkShort?)
    requires m.search == b.search && m.clean == b.clean && m.timely == b.timely
    requires Listeners(m.controlSlot, m.midiSlot) <= Listeners(b.controlSlot, b.midiSlot) + 1
    ensures After(b, target, a)
  {
    hide PassLog;
  }

  /** A slot for the answer on the port is there, and the timer that bounds the wait for it. */
  function Listening(m: Machine, port: Port): Machine {
    if port.ControlPort? then m.(controlSlot := m.nextSlot, nextSlot := m.nextSlot + 1, timer := ControlTimeout)
    else m.(midiSlot := m.nextSlot, nextSlot := m.nextSlot + 1, timer := MidiTimeout)
  }

  /** state_connect_control, once the port is open. */
  lemma {:induction false} ListensForControl(b: Machine, env: Env)
    requires Entered(b, ConnectControl)
    ensures env.opens == [] ==> Landed(b, ConnectControl, env, Listening(b, ControlPort))
    ensures Settled(Listening(b, ControlPort)) && Fits(Listening(b, ControlPort), true, 5)
  {
    hide PassLog;
  }

  /** state_connect_midi, once the port is open. */
  lemma {:induction false} ListensForMidi(b: Machine, env: Env)
    requires Entered(b, ConnectMidi)
    ensures env.opens == [] ==> Landed(b, ConnectMidi, env, Listening(b, MidiPort))
    ensures Settled(Listening(b, MidiPort)) && Fits(Listening(b, MidiPort), true, 4)
  {
    hide PassLog;
  }

  /** The state that waits for an answer on the port. */
  function AskedIn(port: Port): State {
    if port.ControlPort? then ConnectControl else ConnectMidi
  }

  lemma {:induction false} ListensWell(b: Machine, port: Port)
    requires Entered(b, AskedIn(port))
    ensures var m := Listening(b, port);
            && Settled(m) && Fits(m, true, if port.ControlPort? then 5 else 4)
            && m.search == b.search && m.clean == b.clean && m.timely == b.timely
            && Listeners(m.controlSlot, m.midiSlot) <= Listeners(b.controlSlot, b.midiSlot) + 1
  {
    hide Settled, Fits, Entered;
    if port.ControlPort? {
      ListensForControl(b, SILENT);
    } else {
      ListensForMidi(b, SILENT);
    }
  }

  lemma {:induction false} DisconnectFits(b: Machine)
    requires Entered(b, DisconnectControl)
    ensures Fits(b.(timer := NoTimer), true, 4)
  {
    hide PassLog;
  }

  /** state_disconnect_control: the goodbye may have led somewhere else already. */
  lemma {:induction false} GoodbyeIsReady(b: Machine, m: Machine, fired: bool)
    requires Entered(b, DisconnectControl) && Came(b.(timer := NoTimer), m, fired, true)
    ensures Valid(m) && Ready(m, Transition(m.state, ConnectFailed)) && !Attempts(Transition(m.state, ConnectFailed))
    ensures Unresolved(Transition(m.state, ConnectFailed), m.search.addresses) == 0
    ensures !Less(m.search, b.search) ==> m == b.(timer := NoTimer)
  {
    hide PassLog, CkLog;
    FailedIsReady(m);
  }

  lemma {:induction false} GoodbyeSettles(b: Machine, m: Machine, fired: bool, a: Machine)
    requires Entered(b, DisconnectControl) && Came(b.(timer := NoTimer), m, fired, true)
    requires After(m, Transition(m.state, ConnectFailed), a)
    ensures After(b, DisconnectControl, a)
  {
    hide PassLog, CkLog, Wired;
    GoodbyeIsReady(b, m, fired);
  }

  /** state_disconnect_because_cktimeout */
  lemma {:induction false} CkTimeoutIsReady(b: Machine, m: Machine, fired: bool)
    requires Entered(b, DisconnectBecauseCKTimeout) && Came(b, m, fired, true)
    ensures Valid(m) && Ready(m, Transition(m.state, ConnectFailed)) && !Attempts(Transition(m.state, ConnectFailed))
    ensures Unresolved(Transition(m.state, ConnectFailed), m.search.addresses) == 0
    ensures m == b || Within(m, b, 0, Listeners(b.controlSlot, b.midiSlot))
    ensures Rank(Transition(m.state, ConnectFailed)) <= 6
  {
    hide PassLog, CkLog;
    FailedIsReady(m);
  }

  lemma {:induction false} CkTimeoutSettles(b: Machine, m: Machine, fired: bool, a: Machine)
    requires Entered(b, DisconnectBecauseCKTimeout) && Came(b, m, fired, true)
    requires After(m, Transition(m.state, ConnectFailed), a)
    ensures After(b, DisconnectBecauseCKTimeout, a)
  {
    hide PassLog, CkLog, Wired;
    CkTimeoutIsReady(b, m, fired);
  }

  /** A client that is connected listens for no status, so its goodbye comes back as nothing. */
  lemma {:induction false} CkTimeoutIsQuiet(b: Machine, m: Machine, fired: bool)
    requires Entered(b, DisconnectBecauseCKTimeout) && Came(b, m, fired, true) && b.timely
    ensures !fired && m == b
  {
    hide PassLog;
  }

  lemma {:induction false} CkTimeoutLands(b: Machine, env: Env, a: Machine)
    requires Landed(b, ConnectControl, env, a)
    ensures Landed(b, DisconnectBecauseCKTimeout, env, a)
  {}

  /** state_all_connected */
  function Restart(m: Machine): Machine {
    m.(timer := NoTimer, ckCount := 0, shortSent := 0, longWaits := 0)
  }

  lemma {:induction false} AllConnectedIsReady(b: Machine)
    requires Entered(b, AllConnected)
    ensures b.state == AllConnected && Valid(Restart(b)) && Ready(Restart(b), SendCkShort)
  {
    hide PassLog;
  }

  lemma {:induction false} AllConnectedSettles(b: Machine, a: Machine)
    requires After(Restart(b), SendCkShort, a)
    ensures After(b, AllConnected, a)
  {
    hide PassLog;
  }

  lemma {:induction false} AllConnectedLands(b: Machine, env: Env, a: Machine)
    requires Landed(Restart(b), SendCkShort, env, a)
    ensures Landed(b, AllConnected, env, a)
  {}

  /** state_send_ck_short */
  function CountShort(m: Machine): Machine {
    m.(timer := CkTimeout, ckSlot := ShortSlot, ckCount := (m.ckCount + 1) % 0x100, shortSent := m.shortSent + 1)
  }

  lemma {:induction false} ShortSettles(b: Machine, env: Env)
    requires Entered(b, SendCkShort)
    ensures Landed(b, SendCkShort, env, CountShort(b))
    ensures b.state == SendCkShort && Settled(CountShort(b)) && Fits(CountShort(b), true, 4)
  {
    hide PassLog;
  }

  lemma {:induction false} LongIsReady(b: Machine)
    requires Entered(b, SendCkLong)
    ensures b.state == SendCkLong && Fits(b.(ckCount := (b.ckCount + 1) % 0x100), true, 4)
  {
    hide PassLog;
  }

  /** state_send_ck_long: the timer and the slot come last, even when the failure has led to Error. */
  lemma {:induction false} LongSettles(b: Machine, m: Machine, fired: bool)
    requires Entered(b, SendCkLong) && Came(b.(ckCount := (b.ckCount + 1) % 0x100), m, fired, true)
    ensures After(b, SendCkLong, m.(timer := CkTimeout, ckSlot := LongSlot))
  {
    hide PassLog;
  }

  lemma {:induction false} LongLands(b: Machine, env: Env)
    requires b.state == SendCkLong
    ensures Landed(b, SendCkLong, env,
                   b.(ckCount := (b.ckCount + 1) % 0x100, timer := CkTimeout, ckSlot := LongSlot))
  {
    hide Take, Advance;
  }

  lemma {:induction false} WaitsSettle(b: Machine)
    ensures Entered(b, WaitSendCkShort) ==> After(b, WaitSendCkShort, b.(timer := NextCk))
    ensures Entered(b, WaitSendCkLong) ==>
              After(b, WaitSendCkLong, b.(ckSlot := NoSlot, longWaits := b.longWaits + 1, timer := NextCk))
  {
    hide PassLog;
  }

  lemma {:induction false} WaitsLand(b: Machine, env: Env)
    ensures b.state == WaitSendCkShort ==> Landed(b, WaitSendCkShort, env, b.(timer := NextCk))
    ensures b.state == WaitSendCkLong ==>
              Landed(b, WaitSendCkLong, env, b.(ckSlot := NoSlot, longWaits := b.longWaits + 1, timer := NextCk))
    ensures Lands(b, WaitSendCkShort, env) || Lands(b, WaitSendCkLong, env) ==> env.opens == env.sends == []
    ensures Entered(b, WaitSendCkShort) ==> b.state == WaitSendCkShort
    ensures Entered(b, WaitSendCkLong) ==> b.state == WaitSendCkLong
  {
    hide Take, Advance, PassLog, Ready;
  }

  // ----- what a raised status leads to

  lemma {:induction false} SettledFits(b: Machine, a: Machine, fired: bool, failed: bool, r: nat)
    requires Fits(b, failed, r) && Came(b, a, fired, failed)
    ensures Fits(a, failed, r)
  {
    hide PassLog;
  }

  lemma {:induction false} NothingCame(m: Machine, failed: bool)
    ensures Came(m, m, false, failed)
  {
    hide PassLog;
  }

  /** Where both slots are there, a MIDI-port attempt has timed out. */
  lemma {:induction false} OneSlotIfTimely(m: Machine)
    requires Valid(m) && m.timely
    ensures m.controlSlot == 0 || m.midiSlot == 0
  {
    hide PassLog;
  }

  lemma {:induction false} Unmoved(b: Machine, a: Machine, fired: bool, failed: bool)
    requires Came(b, a, fired, failed)
    ensures !fired ==> a == b
  {
    hide PassLog;
  }

  lemma {:induction false} FitsIsValid(m: Machine, failed: bool, r: nat)
    requires Fits(m, failed, r)
    ensures Valid(m)
  {}

  lemma {:induction false} CameWithin(b: Machine, a: Machine, fired: bool, failed: bool)
    requires Came(b, a, fired, failed)
    ensures Within(a, b, 0, Listeners(b.controlSlot, b.midiSlot)) && (a.timely ==> b.timely)
  {
    hide PassLog;
  }

  lemma {:induction false} EnteredFits(m: Machine, target: State, r: nat)
    requires Valid(m) && m.state == target && (NeedsAddress(target) || target == Error)
    requires Rank(Transition(target, ConnectFailed)) <= r && (NeedsAddress(target) ==> r >= 4)
    ensures Fits(m, true, r)
  {
    hide PassLog;
  }

  /** No answer comes in while goodbye is said, so what that leads to ends in Error if at all. */
  lemma {:induction false} LeavingStays(b: Machine, a: Machine, fired: bool)
    requires Came(b, a, fired, true) && Valid(b) && (b.timely ==> Leaving(b.state))
    ensures a.timely ==> b.timely && Leaving(a.state) && (fired ==> a.state == Error && a.midiSlot == 0)
    ensures !fired ==> a == b
  {
    hide PassLog;
  }

  lemma {:induction false} CameThen(b: Machine, m: Machine, a: Machine, first: bool, second: bool, failed: bool)
    requires Came(b, m, first, failed) && Came(m, a, second, failed)
    ensures Came(b, a, first || second, failed)
  {
    hide PassLog;
  }

  /** What the slots of state_connect_control and state_connect_midi raise. */
  function Heard(slotIs: bool): Event {
    if slotIs then Connected else ConnectFailed
  }

  lemma {:induction false} ControlIsReady(b: Machine, good: bool)
    requires Valid(b) && b.controlSlot != 0 && (NeedsAddress(b.state) || b.state == Error)
    ensures var m, t := b.(controlSlot := 0), Transition(b.state, Heard(good));
            && Valid(m) && Ready(m, t) && Unresolved(t, m.search.addresses) == 0
            && (m.timely ==> m.midiSlot == 0 && t != AllConnected && (t == ConnectMidi ==> good))
  {
    hide PassLog;
  }

  lemma {:induction false} MidiIsReady(b: Machine, good: bool)
    requires Valid(b) && b.midiSlot != 0 && (NeedsAddress(b.state) || b.state == Error)
    ensures var m, t := b.(midiSlot := 0), Transition(b.state, Heard(good));
            && Valid(m) && Ready(m, t) && Unresolved(t, m.search.addresses) == 0
            && (m.timely ==> t != ConnectMidi && (t == AllConnected ==> good))
  {
    hide PassLog;
  }

  lemma {:induction false} SlotLands(b: Machine, m: Machine, target: State, env: Env, a: Machine)
    requires m == b.(controlSlot := 0) || m == b.(midiSlot := 0)
    ensures Lands(m, target, env) == Lands(b, target, env)
    ensures Landed(m, target, env, a) == Landed(b, target, env, a)
  {
    hide Found;
  }

  lemma {:induction false} SlotComes(b: Machine, m: Machine, control: bool, good: bool, a: Machine, code: nat)
    requires Valid(b)
    requires if control then m == b.(controlSlot := 0) && b.controlSlot != 0
             else m == b.(midiSlot := 0) && b.midiSlot != 0
    requires code >= 128 ==> !good
    requires After(m, Transition(b.state, Heard(good)), a)
    ensures Came(b, a, true, code >= 128)
  {
    hide PassLog;
  }

  // ----- what comes from outside

  /** The status while the port is asked for. */
  function Asking(port: Port): Status {
    if port.ControlPort? then NOT_CONNECTED else CONTROL_CONNECTED
  }

  /** The state that a good answer leads to. */
  function Good(port: Port): State {
    if port.ControlPort? then ConnectMidi else AllConnected
  }

  /** What the timer that is armed raises, and what else it does. */
  function TimerEvent(timer: Timer): Event {
    match timer
    case CkTimeout => Timeout
    case NextCk => SendCK
    case Reconnect => Connect
    case _ => ConnectFailed
  }

  function Expire(m: Machine): Machine {
    m.(timer := NoTimer, controlSlot := if (m.timer.ControlTimeout? || m.timer.MidiTimeout?) then 0 else m.controlSlot,
       timely := m.timely && m.timer != MidiTimeout)
  }

  lemma {:induction false} TimerIsReady(m: Machine)
    requires Settled(m)
    ensures var t := Transition(m.state, TimerEvent(m.timer));
            && Valid(Expire(m)) && Ready(Expire(m), t) && !Attempts(t)
            && (m.timer == ControlTimeout ==> t == ResolveNextIpPort && m.search.addresses != [])
  {
    hide PassLog;
  }

  lemma {:induction false} TimerLeaves(b: Machine, a: Machine)
    requires Settled(b) && After(Expire(b), Transition(b.state, TimerEvent(b.timer)), a)
    ensures Settled(a) && a.timely == (b.timely && b.timer != MidiTimeout)
    ensures b.timer == Reconnect && b.state == Error ==> SamePass(a.search, NewPass(b.search))
    ensures b.timer == ControlTimeout ==> Less(a.search, b.search)
    ensures var t := Transition(b.state, TimerEvent(b.timer));
            Spent(b.search, t) ==> a.state == Error && a.timer == Reconnect && a.search == Found(b.search, t, SILENT)
  {
    TimerIsReady(b);
    hide PassLog, CkLog, Wired, Found;
  }

  lemma {:induction false} TimerLands(m: Machine, env: Env, a: Machine)
    requires Settled(m)
    ensures var t := Transition(m.state, TimerEvent(m.timer));
            && (m.timer != MidiTimeout && Lands(m, t, env) ==> Lands(Expire(m), t, env))
            && (Landed(Expire(m), t, env, a) ==> Landed(m, t, env, a))
  {
    hide PassLog, CkLog, Wired, Found;
  }

  /** What the slot at the clock signal raises. */
  function CkAnswer(m: Machine): Event {
    if m.ckSlot == ShortSlot && m.ckCount >= 6 then LatencyMeasured else WaitSendCK
  }

  lemma {:induction false} CkIsReady(m: Machine)
    requires Settled(m) && (m.ckSlot.ShortSlot? || m.ckSlot.LongSlot?)
    ensures var t := Transition(m.state, CkAnswer(m));
            && Valid(m.(timer := NoTimer)) && Ready(m.(timer := NoTimer), t)
            && (t.Error? || t.WaitSendCkShort? || t.WaitSendCkLong?)
  {
    hide PassLog;
  }

  /** The client has asked for the time, and listens for the answer. */
  predicate AsksTime(m: Machine) {
    (m.state.SendCkShort? && m.ckSlot.ShortSlot?) || (m.state.SendCkLong? && m.ckSlot.LongSlot?)
  }

  lemma {:induction false} AskingListens(m: Machine)
    requires Settled(m) && (m.state.SendCkShort? || m.state.SendCkLong?)
    ensures AsksTime(m)
  {
    hide PassLog;
  }

  /** An answer that is awaited leads to a wait, by which nothing is asked of the outside. */
  lemma {:induction false} AnswerLands(m: Machine, env: Env)
    requires AsksTime(m)
    ensures var t := Transition(m.state, CkAnswer(m));
            && (env.opens == env.sends == [] ==> Lands(m.(timer := NoTimer), t, env))
            && (forall status :: SentOn(t, status, env) == [])
            && (forall status :: Calm(t, status, env) == status)
  {}

  lemma {:induction false} WaitIsLanded(m: Machine, env: Env, a: Machine)
    requires AsksTime(m) && Landed(m.(timer := NoTimer), Transition(m.state, CkAnswer(m)), env, a)
    ensures a.shortSent == m.shortSent && a.search == m.search
  {
    hide Take, Advance;
  }

  lemma {:induction false} WarnSettles(b: Machine, target: State, a: Machine)
    requires After(b, target, a) && (target.Error? || target.WaitSendCkShort? || target.WaitSendCkLong?)
    ensures Settled(a.(ckSlot := WarnSlot)) && a.state == target && a.timely == b.timely
    ensures target == Error ==> a.search == b.search && a.timer == Reconnect
  {
    hide PassLog;
  }

  /** Between two calls from outside: nothing has begun, or a chain has settled. */
  ghost predicate Idle(m: Machine) {
    Valid(m) && (m.state == WaitToStart || Settled(m))
  }

  lemma {:induction false} IdleFits(m: Machine, failed: bool)
    requires Idle(m)
    ensures Fits(m, failed, 9)
  {
    hide PassLog;
  }

  /** Where answers lead in the states that wait for them. */
  lemma {:induction false} AnswersLead()
    ensures Transition(ConnectControl, Connected) == ConnectMidi && Transition(ConnectMidi, Connected) == AllConnected
    ensures Transition(ConnectControl, ConnectFailed) == ResolveNextIpPort
    ensures Transition(ConnectMidi, ConnectFailed) == DisconnectControl
  {}

  lemma {:induction false} IdleAfter(b: Machine, a: Machine, fired: bool, failed: bool)
    requires Idle(b) && Came(b, a, fired, failed)
    ensures Idle(a) && (Settled(b) ==> Settled(a)) && a.timely == b.timely
  {
    hide PassLog;
  }

  function Add(s: Search, es: seq<Endpoint>): Search {
    s.(known := s.known + es, pending := s.pending + es, pass := s.pass.(extra := true))
  }

  function Added(m: Machine, es: seq<Endpoint>): Machine {
    m.(search := Add(m.search, es))
  }

  lemma {:induction false} AddKeepsLog(s: Search, es: seq<Endpoint>)
    requires PassLog(s)
    ensures PassLog(Add(s, es))
  {
    hide Flatten, Reverse;
  }

  lemma {:induction false} AddKeeps(s: Search, es: seq<Endpoint>)
    ensures var a := Add(s, es);
            && a.addresses == s.addresses && a.at == s.at && a.pass.taken == s.pass.taken && a.pass.extra
            && a.pass.stale == s.pass.stale && (s.known == s.pending ==> a.known == a.pending)
  {}

  lemma {:induction false} AddedIsIdle(b: Machine, es: seq<Endpoint>)
    requires Idle(b)
    ensures Idle(Added(b, es))
  {
    AddKeepsLog(b.search, es);
    AddKeeps(b.search, es);
    hide PassLog, Add;
  }

  predicate EnoughFound(env: Env) {
    && env.sends == [] && (forall i | 0 <= i < |env.opens| :: !env.opens[i])
    && env.answers != [] && |env.opens| < |env.answers[0]|
  }

  /** The first endpoint that is added is the one to resolve. */
  lemma {:induction false} AddFinds(m: Machine, e: Endpoint, env: Env)
    requires Idle(m) && m.state == WaitToStart
    requires EnoughFound(env)
    ensures Lands(Added(m, [e]), TryConnectToAllKnownDNS, env)
  {
    hide PassLog, CkLog;
  }

  lemma {:induction false} AddedIs(m: Machine, es: seq<Endpoint>)
    ensures var a := Added(m, es);
            && a == m.(search := a.search)
            && a.search.known == m.search.known + es && a.search.pending == m.search.pending + es
            && forall s | SamePass(s, NewPass(a.search)) ::
                 s.known == a.search.known && SamePass(s, NewPass(m.search.(known := a.search.known)))
  {}

  lemma {:induction false} StartSends(status: Status, env: Env)
    ensures SentOn(TryConnectToAllKnownDNS, status, env) == [Invitation(ControlPort)]
    ensures Calm(TryConnectToAllKnownDNS, status, env) == status
  {}

  lemma {:induction false} AddOneMore(s: Search, es: seq<Endpoint>, i: nat)
    requires i < |es|
    ensures var a := Add(s, es[..i]);
            Add(s, es[..i + 1]) == a.(known := a.known + [es[i]], pending := a.pending + [es[i]])
  {
    assert es[..i + 1] == es[..i] + [es[i]];
  }

  // ----- what a pass over the endpoints comes to

  /**
    * When a pass that began with nothing left over has ended in Error, every known endpoint
    * was resolved, last-added first, and every address that this gave was tried, in the
    * resolver's order, once.
    */
  lemma {:induction false} CleanPassTriesAll(m: Machine)
    requires Settled(m) && m.state == Error && m.clean && !m.search.pass.extra
    ensures var s, p := m.search, m.search.pass;
            && s.known == Reverse(p.taken) && p.asked == p.taken
            && |p.lists| == |s.known| && p.attempts == Flatten(p.lists)
  {}

  /**
    * A pass that has ended in Error with nothing left to try has left out an endpoint exactly
    * when it began with a list left over: the last added, which was never resolved.
    */
  lemma {:induction false} LeftOverListHidesAnEndpoint(m: Machine)
    requires Settled(m) && m.state == Error && m.search.addresses == [] && !m.search.pass.extra && m.search.known != []
    ensures var s, p := m.search, m.search.pass;
            && (p.asked == p.taken <==> !p.stale)
            && p.taken != [] && p.taken[0] == Last(s.known)
            && p.asked == p.taken[if p.stale then 1 else 0..]
  {
    assert m.search.known == Reverse(m.search.pass.taken);
    assert m.search.pass.taken != [];
  }

  class RtpClient {
    var state: State
    var status: Status
    var known: seq<Endpoint>
    var pending: seq<Endpoint>
    var endpoint: Endpoint
    /** The resolver's answer, empty when the list is not valid, and the place of its iterator. */
    var addresses: seq<Address>
    var at: nat
    var timer: Timer
    var ckCount: byte
    /** The ids of the two status slots at the peer, 0 for none. */
    var controlSlot: nat
    var midiSlot: nat
    var nextSlot: nat
    var ckSlot: CkSlot

    // What the outside will answer, call by call.
    var answers: seq<seq<Address>>
    var opens: seq<bool>
    var sends: seq<bool>
    /** The packets that have been handed out. */
    var sent: seq<Out>

    ghost var pass: Pass
    ghost var clean: bool          // no list was left over
    ghost var timely: bool         // no MIDI-port attempt has timed out
    ghost var shortSent: nat       // on the connection that is up: short-period requests
    ghost var longWaits: nat       // and long waits

    ghost function Now(): Machine
      reads this
    {
      Machine(state, Search(known, pending, endpoint, addresses, at, pass), timer, ckCount, controlSlot, midiSlot,
              nextSlot, ckSlot, clean, timely, shortSent, longWaits)
    }

    /** What the peer's status is when an answer has led to `target`, as long as no MIDI-port attempt has timed out. */
    ghost predicate Right(target: State)
      reads this`timely, this`status
    {
      timely ==>
        && (target == ConnectMidi ==> status == CONTROL_CONNECTED)
        && (target == AllConnected ==> status == CONNECTED)
    }

    /** While the MIDI port is asked for, the control port is connected. */
    ghost predicate Bound()
      reads this`timely, this`status, this`midiSlot
    {
      timely && midiSlot != 0 ==> status == CONTROL_CONNECTED
    }

    /** Every port opens and every packet leaves. */
    ghost predicate Smooth()
      reads this`opens, this`sends
    {
      opens == [] && sends == []
    }

    function Outside(): Env
      reads this`answers, this`opens, this`sends
    {
      Env(answers, opens, sends)
    }

    /** Nothing else goes wrong outside than that control ports do not open, and the target state can get on. */
    ghost predicate Sure(target: State)
      reads this
    {
      Lands(Now(), target, Outside())
    }

    /** Where a status that a slot has heard leads. */
    ghost function HeardTo(good: bool): State
      reads this`state
    {
      Transition(state, Heard(good))
    }

    /** Nothing has been asked of the outside world. */
    twostate predicate Quiet()
      reads this
    {
      answers == old(answers) && opens == old(opens) && sends == old(sends)
    }

    /** The chain that began with `target` has landed. */
    twostate predicate Went(target: State)
      reads this
    {
      && Smooth() && Landed(old(Now()), target, old(Outside()), Now())
      && status == Calm(target, old(status), old(Outside()))
      && sent == old(sent) + SentOn(target, old(status), old(Outside()))
    }

    // ----- the outside world

    /** Whether a packet can be sent. */
    method Sends() returns (ok: bool)
      modifies this`sends
      ensures old(sends) == [] ==> ok && sends == []
    {
      if sends == [] {
        return true;
      }
      ok, sends := sends[0], sends[1..];
    }

    method Opens() returns (ok: bool)
      modifies this`opens
      ensures if old(opens) == [] then ok && opens == [] else ok == old(opens[0]) && opens == old(opens[1..])
    {
      if opens == [] {
        return true;
      }
      ok, opens := opens[0], opens[1..];
    }

    method Resolve() returns (found: seq<Address>)
      modifies this`answers
      ensures old(answers) != [] ==> found == old(answers[0])
    {
      if answers == [] {
        return [];
      }
      found, answers := answers[0], answers[1..];
    }

    // ----- the chain

    /** handle_event: goes to the next state, and does what that state does. */
    method HandleEvent(event: Event)
      requires Valid(Now()) && Ready(Now(), Transition(state, event))
      requires Right(Transition(state, event)) && Bound()
      modifies this
      ensures old(sent) <= sent
      ensures Bound() && After(old(Now()), old(Transition(state, event)), Now())
      ensures old(Sure(Transition(state, event))) ==> Went(old(Transition(state, event)))
      decreases if Transition(state, event) == TryConnectToAllKnownDNS then 1 else 0,
                |pending|, Unresolved(Transition(state, event), addresses), Left(addresses, at),
                Rank(Transition(state, event)), Listeners(controlSlot, midiSlot), 11
    {
      hide Valid, Ready, Entered, After, Right, Bound, Smooth, Lands, Landed;
      ghost var before := Now();
      var next := Transition(state, event);
      assert next != WaitToStart;
      EnterKeeps(before, next);
      clean := clean && !(next == Error && addresses != []);
      state := next;
      assert Now() == Enter(before, next);
      LandsEntering(before, next, Outside());
      ghost var sure, promised := Sure(next), Outside();
      Act();
      AfterEntering(before, next, Now());
      if sure {
        LandedEntering(before, next, promised, Now());
      }
    }

    /** The second switch of handle_event. */
    method Act()
      requires state != WaitToStart && Entered(Now(), state) && Right(state) && Bound()
      modifies this
      ensures old(sent) <= sent
      ensures Bound() && After(old(Now()), old(state), Now())
      ensures old(Sure(state)) ==> Went(old(state))
      decreases if state == TryConnectToAllKnownDNS then 1 else 0,
                |pending|, Unresolved(state, addresses), Left(addresses, at), Rank(state),
                Listeners(controlSlot, midiSlot), 10
    {
      hide Entered, After, Right, Bound, Smooth, Landed;
      match state {
        case Error => StateError();
        case PrepareNextDNS => StatePrepareNextDns();
        case ResolveNextIpPort => StateResolveNextIpPort();
        case ConnectControl => StateConnectControl();
        case ConnectMidi => StateConnectMidi();
        case AllConnected => StateAllConnected();
        case DisconnectControl => StateDisconnectControl();
        case SendCkShort => StateSendCkShort();
        case WaitSendCkShort => StateWaitSendCkShort();
        case WaitSendCkLong => StateWaitSendCkLong();
        case DisconnectBecauseCKTimeout => StateDisconnectBecauseCkTimeout();
        case SendCkLong => StateSendCkLong();
        case TryConnectToAllKnownDNS => StateTryConnectToAllKnownDns();
      }
    }

    method StateError()
      requires Entered(Now(), Error)
      requires Bound()
      modifies this
      ensures old(sent) <= sent
      ensures Bound()
      ensures After(old(Now()), Error, Now())
      ensures old(sent) + FirstOf(Goodbyes(old(status))) <= sent
      decreases 0, |pending|, 0, Left(addresses, at), 1, Listeners(controlSlot, midiSlot), 9
    {
      ghost var before := Now();
      ghost var fired := DisconnectPeer(1);
      ErrorSettles(before, Now(), fired);
      timer := Reconnect;
    }

    method StateTryConnectToAllKnownDns()
      requires Entered(Now(), TryConnectToAllKnownDNS)
      requires Bound()
      modifies this
      ensures old(sent) <= sent
      ensures Bound()
      ensures After(old(Now()), TryConnectToAllKnownDNS, Now())
      ensures old(Sure(TryConnectToAllKnownDNS)) ==> Went(TryConnectToAllKnownDNS)
      decreases 1, |pending|, 0, Left(addresses, at), 2, Listeners(controlSlot, midiSlot), 9
    {
      hide Valid, Ready, Entered, Settled, Fits, Came, After, Lands, Landed, Begin, SentOn, Calm;
      EnteredIn(Now(), TryConnectToAllKnownDNS);
      ghost var before, sure, promised := Now(), Sure(TryConnectToAllKnownDNS), Outside();
      if sure {
        NewPassLands(before, promised);
      }
      NewPassIsReady(before);
      PutAllBack();
      HandleEvent(Connect);
      NewPassSettles(before, Now());
      if sure {
        NewPassLanded(before, promised, Now());
      }
    }

    /** All known endpoints are on the pending list. */
    ghost method BeginPass()
      modifies `pass, `clean
      ensures pass == Pass([], false, [], [], 0, [], addresses != [], false)
      ensures clean == (addresses == [])
    {
      pass := Pass([], false, [], [], 0, [], addresses != [], false);
      clean := addresses == [];
    }

    method PutAllBack()
      modifies this`pending, this`pass, this`clean
      ensures Now() == Begin(old(Now())) && pending == known
    {
      pending := known;
      BeginPass();
    }

    method StatePrepareNextDns()
      requires Entered(Now(), PrepareNextDNS)
      requires Bound()
      modifies this
      ensures old(sent) <= sent
      ensures Bound()
      ensures After(old(Now()), PrepareNextDNS, Now())
      ensures old(Sure(PrepareNextDNS)) ==> Went(PrepareNextDNS)
      decreases 0, |pending|, 0, Left(addresses, at), 2, Listeners(controlSlot, midiSlot), 9
    {
      hide Valid, Ready, Entered, Settled, Fits, Came, After, Lands, Landed, Take, SentOn, Calm;
      EnteredIn(Now(), PrepareNextDNS);
      ghost var before, sure := Now(), Sure(PrepareNextDNS);
      if sure {
        TakeLands(before, Outside());
      }
      if pending == [] {
        NothingPending(before);
        HandleEvent(ConnectListExhausted);
        NothingPendingSettles(before, Now());
        return;
      }
      TakeIsReady(before);
      TakeLast();
      HandleEvent(NextReady);
      TakeSettles(before, Now());
    }

    method TakeLast()
      requires pending != []
      modifies this`endpoint, this`pending, this`pass
      ensures Now() == old(Now()).(search := Take(old(Now()).search)) && |pending| == |old(pending)| - 1
    {
      endpoint, pending := Last(pending), ButLast(pending);
      pass := pass.(taken := pass.taken + [endpoint], owes := true);
    }

    method StateResolveNextIpPort()
      requires Entered(Now(), ResolveNextIpPort)
      requires Bound()
      modifies this
      ensures old(sent) <= sent
      ensures Bound()
      ensures After(old(Now()), ResolveNextIpPort, Now())
      ensures old(Sure(ResolveNextIpPort)) ==> Went(ResolveNextIpPort)
      decreases 0, |pending|, Unresolved(ResolveNextIpPort, addresses), Left(addresses, at), 3,
                Listeners(controlSlot, midiSlot), 9
    {
      hide Valid, Ready, Entered, Settled, Fits, Came, After, Lands, Landed, Advance, SentOn, Calm, Moved, PassLog;
      EnteredIn(Now(), ResolveNextIpPort);
      ghost var before, sure, promised := Now(), Sure(ResolveNextIpPort), Outside();
      EnteredAt(before);
      var any;
      ghost var found;
      any, found := MoveOn();
      ghost var moved := Now().search;
      AdvanceMoves(before.search, found);
      MovedUsesUp(before.search, moved);
      MovedIsReady(before, moved);
      if sure {
        SureAnswer(before, promised);
        AdvanceLands(before, found, promised, Outside());
      }
      if any {
        HandleEvent(Resolved);
      } else {
        HandleEvent(ConnectListExhausted);
      }
      MovedSettles(before, moved, Now());
    }

    /** The first half of state_resolve_next_ip_port: is there an address to try, and which. */
    method MoveOn() returns (any: bool, ghost found: seq<Address>)
      requires addresses != [] ==> at < |addresses|
      requires PassLog(Now().search) && pass.taken != [] && (addresses == [] ==> pass.owes)
      modifies this`addresses, this`at, this`pass, this`answers
      ensures Now() == old(Now()).(search := Advance(old(Now()).search, found)) && PassLog(Now().search)
      ensures old(addresses) == [] && old(answers) != [] ==> found == old(answers[0])
      ensures any == (addresses != []) && (old(addresses) != [] ==> found == [])
    {
      hide PassLog;
      ghost var s := Now().search;
      found := [];
      if addresses == [] {
        addresses := Resolve();
        at := 0;
        found := addresses;
        pass := pass.(owes := false, asked := pass.asked + [endpoint], lists := pass.lists + [found], from := 0);
        ResolveKeepsLog(s, found);
      } else {
        at := at + 1;
        if pass.owes {
          pass := pass.(owes := false, lists := pass.lists + [addresses[at..]], from := at);
          StaleKeepsLog(s);
        } else {
          NextKeepsLog(s);
        }
      }
      any := at < |addresses|;
      if any {
        pass := pass.(attempts := pass.attempts + [addresses[at]]);
      } else {
        addresses, at := [], 0;
      }
    }

    method StateConnectControl()
      requires Entered(Now(), ConnectControl)
      requires Bound()
      modifies this
      ensures old(sent) <= sent
      ensures Bound()
      ensures After(old(Now()), ConnectControl, Now())
      ensures if old(opens) != [] && !old(opens[0]) then After(old(Now()), ResolveNextIpPort, Now())
              else old(sent) + [Invitation(ControlPort)] <= sent
      ensures old(Sure(ConnectControl)) ==> Went(ConnectControl)
      decreases 0, |pending|, 0, Left(addresses, at), 6, Listeners(controlSlot, midiSlot), 9
    {
      hide Valid, Ready, Entered, Settled, Fits, Came, After, Lands, Landed, Transition, SentOn, Calm;
      EnteredIn(Now(), ConnectControl);
      AnswersLead();
      ghost var before, sure, promised := Now(), Sure(ConnectControl), Outside();
      var open := Opens();
      if !open {
        if sure {
          RefusedLands(before, promised, Outside());
        }
        FailureIsReady(before, ConnectControl, timer);
        HandleEvent(ConnectFailed);
        FailureSettles(before, ConnectControl, old(timer), Now());
        return;
      }
      SureOpens(before, promised);
      ListensForControl(before, promised);
      Ask(ControlPort, before);
    }

    method StateConnectMidi()
      requires Entered(Now(), ConnectMidi)
      requires Right(ConnectMidi)
      requires Bound()
      modifies this
      ensures old(sent) <= sent
      ensures Bound()
      ensures After(old(Now()), ConnectMidi, Now())
      ensures if old(opens) != [] && !old(opens[0]) then After(old(Now()).(timer := NoTimer), DisconnectControl, Now())
              else old(sent) + [Invitation(MidiPort)] <= sent
      ensures old(Sure(ConnectMidi)) ==> Went(ConnectMidi)
      decreases 0, |pending|, 0, Left(addresses, at), 5, Listeners(controlSlot, midiSlot), 9
    {
      hide Valid, Ready, Entered, Settled, Fits, Came, After, Lands, Landed, Transition, SentOn, Calm;
      EnteredIn(Now(), ConnectMidi);
      AnswersLead();
      ghost var before, sure, promised := Now(), Sure(ConnectMidi), Outside();
      timer := NoTimer;
      SureMidiOpens(before, promised);
      var open := Opens();
      if !open {
        if sure {
          RefusedMidiLands(before, promised, Outside());
        }
        FailureIsReady(before, ConnectMidi, NoTimer);
        HandleEvent(ConnectFailed);
        FailureSettles(before, ConnectMidi, NoTimer, Now());
        return;
      }
      ListensForMidi(before, promised);
      Ask(MidiPort, before);
    }

    /** The second half of both: the invitation leaves. */
    method Ask(port: Port, ghost before: Machine)
      requires Entered(before, AskedIn(port)) && Now() == before.(timer := timer)
      requires Bound() && (timely && port.MidiPort? ==> status == CONTROL_CONNECTED)
      modifies this
      ensures old(sent) + [Invitation(port)] <= sent
      ensures Bound() && After(before, AskedIn(port), Now())
      ensures old(sends) == [] ==>
                && Quiet() && Now() == Listening(before, port) && status == old(status)
                && sent == old(sent) + [Invitation(port)]
      decreases 0, |pending|, 0, Left(addresses, at), if port.ControlPort? then 6 else 5,
                Listeners(controlSlot, midiSlot), 7
    {
      hide Valid, Ready, Entered, Settled, Fits, Came, After, Transition, Rank, Landed;
      ListensWell(before, port);
      Listen(port);
      ghost var listening := Now();
      ghost var fired := SendOnPort(Invitation(port), if port.ControlPort? then 5 else 4);
      SendingSettles(before, AskedIn(port), listening, Now(), fired);
    }

    /** Connects a slot for the answer on the port, and arms the timer that bounds the wait for it. */
    method Listen(port: Port)
      modifies this`controlSlot, this`midiSlot, this`nextSlot, this`timer
      ensures Now() == Listening(old(Now()), port)
    {
      if port.ControlPort? {
        controlSlot, timer := nextSlot, ControlTimeout;
      } else {
        midiSlot, timer := nextSlot, MidiTimeout;
      }
      nextSlot := nextSlot + 1;
    }

    method StateDisconnectControl()
      requires Entered(Now(), DisconnectControl)
      requires Bound()
      modifies this
      ensures old(sent) + [Goodbye(ControlPort)] <= sent
      ensures Bound()
      ensures After(old(Now()), DisconnectControl, Now())
      ensures old(Sure(DisconnectControl)) ==> Went(DisconnectControl)
      decreases 0, |pending|, 0, Left(addresses, at), 4, Listeners(controlSlot, midiSlot), 9
    {
      hide Valid, Ready, Entered, Settled, Fits, Came, After, Lands, Landed, SentOn, Calm, HasBit, ClearBit;
      ghost var before, sure, promised, was := Now(), Sure(DisconnectControl), Outside(), status;
      if sure {
        DisconnectLands(before, promised, was);
      }
      ghost var fired := LeaveControl();
      ghost var middle := Now();
      HandleEvent(ConnectFailed);
      GoodbyeSettles(before, middle, fired, Now());
    }

    /** The goodbye, and what it leads to. */
    method LeaveControl() returns (ghost fired: bool)
      requires Entered(Now(), DisconnectControl)
      requires Bound()
      modifies this
      ensures old(sent) + [Goodbye(ControlPort)] <= sent
      ensures Bound() && Came(old(Now()).(timer := NoTimer), Now(), fired, true)
      ensures Valid(Now()) && Ready(Now(), Transition(state, ConnectFailed))
      ensures !Attempts(Transition(state, ConnectFailed))
      ensures Unresolved(Transition(state, ConnectFailed), addresses) == 0
      ensures !Less(Now().search, old(Now()).search) ==> Now() == old(Now()).(timer := NoTimer)
      ensures old(state) == DisconnectControl
      ensures old(timely && sends == []) ==>
                && Quiet() && Now() == old(Now()).(timer := NoTimer)
                && status == ClearBit(old(status), ControlPort) && sent == old(sent) + [Goodbye(ControlPort)]
      decreases 0, |pending|, 0, Left(addresses, at), 4, Listeners(controlSlot, midiSlot), 7
    {
      hide Valid, Ready, Entered, Settled, Fits, Came, After, Less, Transition, Rank, ClearBit;
      EnteredIn(Now(), DisconnectControl);
      ghost var before := Now();
      timer := NoTimer;
      DisconnectFits(before);
      fired := SendGoodbyeTo(ControlPort, 4);
      GoodbyeIsReady(before, Now(), fired);
      if before.timely {
        DisconnectIsQuiet(before, Now(), fired);
      }
    }

    method StateAllConnected()
      requires Entered(Now(), AllConnected)
      requires Right(AllConnected)
      requires Bound()
      modifies this
      ensures old(sent) <= sent
      ensures Bound()
      ensures After(old(Now()), AllConnected, Now())
      ensures old(Sure(AllConnected)) ==> Went(AllConnected)
      decreases 0, |pending|, 0, Left(addresses, at), 6, Listeners(controlSlot, midiSlot), 9
    {
      hide Valid, Ready, Entered, Settled, Fits, Came, After, Lands, Landed, SentOn, Calm;
      EnteredIn(Now(), AllConnected);
      ghost var before, sure, promised := Now(), Sure(AllConnected), Outside();
      CountAnew();
      AllConnectedIsReady(before);
      if sure {
        RequestLands(before, promised);
      }
      HandleEvent(SendCK);
      AllConnectedSettles(before, Now());
      if sure {
        AllConnectedLands(before, promised, Now());
      }
    }

    method CountAnew()
      modifies this`timer, this`ckCount, this`shortSent, this`longWaits
      ensures Now() == Restart(old(Now()))
    {
      timer := NoTimer;
      ckCount, shortSent, longWaits := 0, 0, 0;
    }

    method StateSendCkShort()
      requires Entered(Now(), SendCkShort)
      requires Bound()
      modifies this
      ensures old(sent) <= sent
      ensures Bound()
      ensures After(old(Now()), SendCkShort, Now())
      ensures old(sent) + [ClockRequest] <= sent
      ensures old(Sure(SendCkShort)) ==> Went(SendCkShort)
      decreases 0, |pending|, 0, Left(addresses, at), 5, Listeners(controlSlot, midiSlot), 9
    {
      hide Valid, Ready, Entered, Settled, Fits, Came, After, Lands, Landed;
      EnteredIn(Now(), SendCkShort);
      ghost var before := Now();
      CountRequest();
      SureRequest(before, Outside());
      ShortSettles(before, Outside());
      ghost var counted := Now();
      ghost var fired := SendOnPort(ClockRequest, 4);
      SendingSettles(before, SendCkShort, counted, Now(), fired);
    }

    /** A short-period request is about to leave. */
    method CountRequest()
      modifies this`timer, this`ckSlot, this`ckCount, this`shortSent
      ensures Now() == CountShort(old(Now()))
    {
      timer := CkTimeout;
      ckSlot := ShortSlot;
      ckCount := (ckCount + 1) % 0x100;
      shortSent := shortSent + 1;
    }

    method StateWaitSendCkShort()
      requires Entered(Now(), WaitSendCkShort)
      requires Bound()
      modifies this
      ensures old(sent) <= sent
      ensures Bound()
      ensures After(old(Now()), WaitSendCkShort, Now())
      ensures old(Sure(WaitSendCkShort)) ==> Went(WaitSendCkShort)
      decreases 0, |pending|, 0, Left(addresses, at), 0, Listeners(controlSlot, midiSlot), 9
    {
      hide Valid, Ready, Entered, Settled, After, Landed, Lands;
      WaitsSettle(Now());
      WaitsLand(Now(), Outside());
      timer := NextCk;
    }

    method StateSendCkLong()
      requires Entered(Now(), SendCkLong)
      requires Bound()
      modifies this
      ensures old(sent) <= sent
      ensures Bound()
      ensures After(old(Now()), SendCkLong, Now())
      ensures timer == CkTimeout && ckSlot == LongSlot
      ensures old(sent) + [ClockRequest] <= sent
      ensures old(Sure(SendCkLong)) ==> Went(SendCkLong)
      decreases 0, |pending|, 0, Left(addresses, at), 5, Listeners(controlSlot, midiSlot), 9
    {
      hide Valid, Ready, Entered, Settled, Fits, Came, After, Lands, Landed;
      EnteredIn(Now(), SendCkLong);
      ghost var before, promised := Now(), Outside();
      SureLongRequest(before, promised);
      LongIsReady(before);
      ckCount := (ckCount + 1) % 0x100;
      ghost var fired := SendOnPort(ClockRequest, 4);
      LongLands(before, promised);
      LongSettles(before, Now(), fired);
      ListenForLong();
    }

    method ListenForLong()
      modifies this`timer, this`ckSlot
      ensures Now() == old(Now()).(timer := CkTimeout, ckSlot := LongSlot)
    {
      timer := CkTimeout;
      ckSlot := LongSlot;
    }

    method StateWaitSendCkLong()
      requires Entered(Now(), WaitSendCkLong)
      requires Bound()
      modifies this
      ensures old(sent) <= sent
      ensures Bound()
      ensures After(old(Now()), WaitSendCkLong, Now())
      ensures old(Sure(WaitSendCkLong)) ==> Went(WaitSendCkLong)
      decreases 0, |pending|, 0, Left(addresses, at), 0, Listeners(controlSlot, midiSlot), 9
    {
      hide Valid, Ready, Entered, Settled, After, Landed, Lands;
      WaitsSettle(Now());
      WaitsLand(Now(), Outside());
      ckSlot := NoSlot;
      longWaits := longWaits + 1;
      timer := NextCk;
    }

    method StateDisconnectBecauseCkTimeout()
      requires Entered(Now(), DisconnectBecauseCKTimeout)
      requires Bound()
      modifies this
      ensures old(sent) + FirstOf(Goodbyes(old(status))) <= sent
      ensures Bound()
      ensures After(old(Now()), DisconnectBecauseCKTimeout, Now())
      ensures old(Sure(DisconnectBecauseCKTimeout)) ==> Went(DisconnectBecauseCKTimeout)
      decreases 0, |pending|, 0, Left(addresses, at), 7, Listeners(controlSlot, midiSlot), 9
    {
      hide Valid, Ready, Entered, Settled, Fits, Came, After, Lands, Landed, Goodbyes, FirstOf, SentOn, Calm;
      ghost var before, sure, promised, was := Now(), Sure(DisconnectBecauseCKTimeout), Outside(), status;
      if sure {
        SureAgain(before, promised, was);
      }
      ghost var fired := LeaveBoth();
      ghost var middle := Now();
      HandleEvent(ConnectFailed);
      CkTimeoutSettles(before, middle, fired, Now());
      if sure {
        CkTimeoutLands(before, promised, Now());
      }
    }

    method LeaveBoth() returns (ghost fired: bool)
      requires Entered(Now(), DisconnectBecauseCKTimeout)
      requires Bound()
      modifies this
      ensures old(sent) + FirstOf(Goodbyes(old(status))) <= sent
      ensures Bound() && Came(old(Now()), Now(), fired, true) && status == NOT_CONNECTED
      ensures Valid(Now()) && Ready(Now(), Transition(state, ConnectFailed))
      ensures !Attempts(Transition(state, ConnectFailed))
      ensures Unresolved(Transition(state, ConnectFailed), addresses) == 0
      ensures Now() == old(Now()) || Within(Now(), old(Now()), 0, Listeners(old(controlSlot), old(midiSlot)))
      ensures Rank(Transition(state, ConnectFailed)) <= 6 && old(state) == DisconnectBecauseCKTimeout
      ensures old(timely && sends == []) ==> Quiet() && Now() == old(Now()) && sent == old(sent) + Goodbyes(old(status))
      decreases 0, |pending|, 0, Left(addresses, at), 7, Listeners(controlSlot, midiSlot), 8
    {
      hide Valid, Ready, Entered, Settled, Fits, Came, After, Goodbyes, FirstOf, Within;
      ghost var before := Now();
      EnteredIn(before, DisconnectBecauseCKTimeout);
      EnteredFits(before, DisconnectBecauseCKTimeout, 7);
      fired := DisconnectPeer(7);
      CkTimeoutIsReady(before, Now(), fired);
      if before.timely {
        CkTimeoutIsQuiet(before, Now(), fired);
      }
    }

    // ----- the peer: what it raises comes back as an event

    /** The slot of state_connect_control; it hears one status only. */
    method FireControl(slot: nat, code: nat, ghost r: nat) returns (ghost fired: bool)
      requires Fits(Now(), code >= 128, r)
      requires timely && slot != 0 && slot == controlSlot && code < 128 ==> status == code
      modifies this
      ensures old(sent) <= sent
      ensures fired == (slot != 0 && slot == old(controlSlot))
      ensures if fired then Bound() else status == old(status) && Quiet() && sent == old(sent)
      ensures Came(old(Now()), Now(), fired, code >= 128)
      ensures fired && old(Sure(HeardTo(code == CONTROL_CONNECTED))) ==>
                Went(old(HeardTo(code == CONTROL_CONNECTED)))
      decreases 0, |pending|, 0, Left(addresses, at), r, Listeners(controlSlot, midiSlot), 3
    {
      hide PassLog, Settled, CkLog, Ready, After, Wired, Lands, Landed;
      fired := slot != 0 && controlSlot == slot;
      if slot != 0 && controlSlot == slot {
        ghost var before := Now();
        ControlIsReady(before, code == CONTROL_CONNECTED);
        controlSlot := 0;
        ghost var middle := Now();
        ghost var target := Transition(before.state, Heard(code == CONTROL_CONNECTED));
        ghost var promised := Outside();
        SlotLands(before, middle, target, promised, middle);
        HandleEvent(if code == CONTROL_CONNECTED then Connected else ConnectFailed);
        SlotComes(before, middle, true, code == CONTROL_CONNECTED, Now(), code);
        SlotLands(before, middle, target, promised, Now());
      }
    }

    /** The slot of state_connect_midi. */
    method FireMidi(slot: nat, code: nat, ghost r: nat) returns (ghost fired: bool)
      requires Fits(Now(), code >= 128, r)
      requires timely && slot != 0 && slot == midiSlot && code < 128 ==> status == code
      modifies this
      ensures old(sent) <= sent
      ensures fired == (slot != 0 && slot == old(midiSlot))
      ensures if fired then Bound() else status == old(status) && Quiet() && sent == old(sent)
      ensures Came(old(Now()), Now(), fired, code >= 128)
      ensures fired && old(Sure(HeardTo(code == CONNECTED))) ==>
                Went(old(HeardTo(code == CONNECTED)))
      decreases 0, |pending|, 0, Left(addresses, at), r, Listeners(controlSlot, midiSlot), 3
    {
      hide PassLog, Settled, CkLog, Ready, After, Wired, Lands, Landed;
      fired := slot != 0 && midiSlot == slot;
      if slot != 0 && midiSlot == slot {
        ghost var before := Now();
        MidiIsReady(before, code == CONNECTED);
        midiSlot := 0;
        ghost var middle := Now();
        ghost var target := Transition(before.state, Heard(code == CONNECTED));
        ghost var promised := Outside();
        SlotLands(before, middle, target, promised, middle);
        HandleEvent(if code == CONNECTED then Connected else ConnectFailed);
        SlotComes(before, middle, false, code == CONNECTED, Now(), code);
        SlotLands(before, middle, target, promised, Now());
      }
    }

    /** status_change_event: calls the slots that are there, the older first, each if it is still connected. */
    method Raise(code: nat, ghost r: nat) returns (ghost fired: bool)
      requires Fits(Now(), code >= 128, r)
      requires code < 128 ==> status == code
      modifies this
      ensures old(sent) <= sent
      ensures Bound() && (old(controlSlot) != 0 || old(midiSlot) != 0 ==> fired)
      ensures !fired ==> status == old(status) && Quiet() && sent == old(sent)
      ensures Came(old(Now()), Now(), fired, code >= 128) && Fits(Now(), code >= 128, r)
      ensures old(midiSlot == 0 && controlSlot != 0 && Sure(HeardTo(code == CONTROL_CONNECTED))) ==>
                Went(old(HeardTo(code == CONTROL_CONNECTED)))
      ensures old(controlSlot == 0 && midiSlot != 0 && Sure(HeardTo(code == CONNECTED))) ==>
                Went(old(HeardTo(code == CONNECTED)))
      decreases 0, |pending|, 0, Left(addresses, at), r, Listeners(controlSlot, midiSlot), 4
    {
      hide Came, PassLog, Settled, Lands, Landed;
      ghost var before := Now();
      var c, m := controlSlot, midiSlot;
      if timely {
        OneSlotIfTimely(before);
      }
      ghost var first, second := false, false;
      if c != 0 && (m == 0 || c < m) {
        first := FireControl(c, code, r);
        ghost var middle := Now();
        Unmoved(before, middle, first, code >= 128);
        CameWithin(before, middle, first, code >= 128);
        SettledFits(before, middle, first, code >= 128, r);
        second := FireMidi(m, code, r);
        Unmoved(middle, Now(), second, code >= 128);
        CameWithin(middle, Now(), second, code >= 128);
        CameThen(before, middle, Now(), first, second, code >= 128);
      } else {
        first := FireMidi(m, code, r);
        ghost var middle := Now();
        Unmoved(before, middle, first, code >= 128);
        CameWithin(before, middle, first, code >= 128);
        SettledFits(before, middle, first, code >= 128, r);
        second := FireControl(c, code, r);
        Unmoved(middle, Now(), second, code >= 128);
        CameWithin(middle, Now(), second, code >= 128);
        CameThen(before, middle, Now(), first, second, code >= 128);
      }
      fired := first || second;
      SettledFits(before, Now(), fired, code >= 128, r);
    }

    /** A packet goes out; a failure comes back as a status. */
    method SendOnPort(packet: Out, ghost r: nat) returns (ghost fired: bool)
      requires Fits(Now(), true, r)
      requires Bound()
      modifies this
      ensures old(sent) + [packet] <= sent && (!fired ==> sent == old(sent) + [packet])
      ensures Bound() && (!fired ==> status == old(status))
      ensures Came(old(Now()), Now(), fired, true) && Fits(Now(), true, r)
      ensures old(sends) == [] ==> !fired && Quiet() && Now() == old(Now())
      decreases 0, |pending|, 0, Left(addresses, at), r, Listeners(controlSlot, midiSlot), 5
    {
      hide Came, Fits;
      NothingCame(Now(), true);
      fired := false;
      sent := sent + [packet];
      var ok := Sends();
      if !ok {
        fired := Raise(DISCONNECTED_NETWORK_ERROR, r);
      }
    }

    /** The status after a goodbye. */
    method ForgetPort(port: Port)
      modifies this`status
      ensures old(status) == CONTROL_CONNECTED ==>
                status == if port.ControlPort? then NOT_CONNECTED else CONTROL_CONNECTED
      ensures status == ClearBit(old(status), port)
    {
      if status == CONNECTED {
        status := if port.MidiPort? then CONTROL_CONNECTED else MIDI_CONNECTED;
      }
      if status == MIDI_CONNECTED && port.MidiPort? {
        status := NOT_CONNECTED;
      }
      if status == CONTROL_CONNECTED && port.ControlPort? {
        status := NOT_CONNECTED;
      }
    }

    /** rtppeer_t::send_goodbye */
    method SendGoodbyeTo(port: Port, ghost r: nat) returns (ghost fired: bool)
      requires Fits(Now(), true, r)
      requires Bound() && (timely ==> Leaving(state))
      modifies this
      ensures old(sent) + [Goodbye(port)] <= sent && (!fired ==> sent == old(sent) + [Goodbye(port)])
      ensures Bound() && (timely ==> Leaving(state))
      ensures !fired ==> status == ClearBit(old(status), port) && (old(sends) == [] ==> Quiet())
      ensures port.ControlPort? && old(timely && midiSlot != 0) ==> fired
      ensures Came(old(Now()), Now(), fired, true) && Fits(Now(), true, r)
      decreases 0, |pending|, 0, Left(addresses, at), r, Listeners(controlSlot, midiSlot), 6
    {
      hide Came, Fits;
      ghost var before := Now();
      FitsIsValid(before, true, r);
      fired := SendOnPort(Goodbye(port), r);
      LeavingStays(before, Now(), fired);
      ForgetPort(port);
      if status == NOT_CONNECTED {
        ghost var middle := Now();
        CameWithin(before, middle, fired, true);
        ghost var again := Raise(DISCONNECTED_DISCONNECT, r);
        CameThen(before, middle, Now(), fired, again, true);
        fired := fired || again;
        LeavingStays(before, Now(), fired);
      }
    }

    /** rtppeer_t::disconnect */
    method DisconnectPeer(ghost r: nat) returns (ghost fired: bool)
      requires Fits(Now(), true, r)
      requires Bound() && Leaving(state)
      modifies this
      ensures old(sent) + FirstOf(Goodbyes(old(status))) <= sent
      ensures !fired ==> sent == old(sent) + Goodbyes(old(status))
      ensures Bound() && (timely && old(state) == Error ==> midiSlot == 0)
      ensures Came(old(Now()), Now(), fired, true) && status == NOT_CONNECTED
      ensures !fired && old(sends) == [] ==> Quiet()
      decreases 0, |pending|, 0, Left(addresses, at), r, Listeners(controlSlot, midiSlot), 7
    {
      hide Came, Fits, Transition, Rank, Valid, Smooth;
      ghost var before := Now();
      NothingCame(before, true);
      FitsIsValid(before, true, r);
      fired := false;
      if HasBit(status, MidiPort) {
        fired := SendGoodbyeTo(MidiPort, r);
      }
      if HasBit(status, ControlPort) {
        ghost var middle := Now();
        CameWithin(before, middle, fired, true);
        ghost var again := SendGoodbyeTo(ControlPort, r);
        CameThen(before, middle, Now(), fired, again, true);
        fired := fired || again;
      }
      LeavingStays(before, Now(), fired);
      status := NOT_CONNECTED;
    }

    // ----- what is called from outside

    /** The client has asked on one port, and only that answer is listened for. */
    ghost predicate Awaits(port: Port)
      reads this
    {
      if port.ControlPort? then state == ConnectControl && controlSlot != 0 && midiSlot == 0
      else state == ConnectMidi && midiSlot != 0 && controlSlot == 0
    }

    /** What an answer on a port that the client waits for leads to, behind what has been handed out first. */
    twostate predicate Answered(port: Port, first: seq<Out>)
      reads this
    {
      old(Awaits(port) && status == Asking(port) && Sure(Good(port))) ==>
        && Smooth() && Landed(old(Now()), Good(port), old(Outside()), Now())
        && status == Calm(Good(port), SetBit(Asking(port), port), old(Outside()))
        && sent == old(sent) + first + SentOn(Good(port), NOT_CONNECTED, old(Outside()))
    }

    /** The next name resolves to more addresses than have control ports that do not open. */
    predicate Finds()
      reads this`answers, this`opens, this`sends
    {
      EnoughFound(Outside())
    }

    constructor ()
      ensures Idle(Now()) && Bound() && state == WaitToStart && known == [] && status == NOT_CONNECTED
      ensures Smooth() && timely && sent == []
    {
      state, status := WaitToStart, NOT_CONNECTED;
      known, pending, endpoint := [], [], Endpoint("", "");
      addresses, at := [], 0;
      timer, ckCount := NoTimer, 0;
      controlSlot, midiSlot, nextSlot, ckSlot := 0, 0, 1, NoSlot;
      answers, opens, sends, sent := [], [], [], [];
      pass, clean, timely := Pass([], false, [], [], 0, [], false, false), true, true;
      shortSent, longWaits := 0, 0;
    }

    /** connect: does something the first time only. */
    method ConnectAll()
      requires Idle(Now()) && Bound()
      modifies this
      ensures old(sent) <= sent
      ensures Settled(Now()) && Bound() && timely == old(timely)
      ensures old(state) == WaitToStart ==> SamePass(Now().search, NewPass(old(Now()).search))
      ensures old(state) != WaitToStart ==> Now() == old(Now()) && status == old(status)
      ensures old(state == WaitToStart && Sure(TryConnectToAllKnownDNS)) ==> Went(TryConnectToAllKnownDNS)
    {
      hide PassLog, CkLog, Lands, Landed;
      if state == WaitToStart {
        ghost var before, sure, promised := Now(), Sure(TryConnectToAllKnownDNS), Outside();
        if sure {
          NewPassLands(before, promised);
        }
        NewPassIsReady(before);
        BeginPass();
        assert Now() == Begin(before);
        HandleEvent(Started);
        if sure {
          NewPassLanded(before, promised, Now());
        }
      }
    }

    method AddServerAddress(e: Endpoint)
      requires Idle(Now()) && Bound()
      modifies this
      ensures old(sent) <= sent
      ensures Settled(Now()) && Bound() && timely == old(timely)
      ensures known == old(known) + [e] && (old(state) != WaitToStart ==> pending == old(pending) + [e])
      ensures old(state) == WaitToStart ==> SamePass(Now().search, NewPass(old(Now()).search.(known := known)))
      ensures old(state) == WaitToStart && old(Finds()) ==>
                && Smooth() && status == old(status) && sent == old(sent) + [Invitation(ControlPort)]
                && Landed(Added(old(Now()), [e]), TryConnectToAllKnownDNS, old(Outside()), Now())
    {
      hide Idle, Settled, Lands, Landed, Found, EnoughFound, Added, SentOn, Calm, SamePass, NewPass;
      ghost var before := Now();
      StartSends(status, Outside());
      AddedIs(before, [e]);
      if state == WaitToStart && Finds() {
        AddFinds(before, e, Outside());
      }
      AddedIsIdle(before, [e]);
      AddEach([e]);
      ConnectAll();
    }

    method AddServerAddresses(es: seq<Endpoint>)
      requires Idle(Now()) && Bound()
      modifies this
      ensures old(sent) <= sent
      ensures Settled(Now()) && Bound() && timely == old(timely)
      ensures known == old(known) + es && (old(state) != WaitToStart ==> pending == old(pending) + es)
      ensures old(state) == WaitToStart ==> SamePass(Now().search, NewPass(old(Now()).search.(known := known)))
    {
      hide Idle, Settled;
      ghost var before := Now();
      AddedIsIdle(before, es);
      AddEach(es);
      ConnectAll();
    }

    method AddEach(es: seq<Endpoint>)
      modifies this`known, this`pending, this`pass
      ensures Now() == Added(old(Now()), es)
    {
      ghost var before := Now();
      pass := pass.(extra := true);
      assert Now().search == Add(before.search, es[..0]);
      for i := 0 to |es|
        invariant Now() == Added(before, es[..i])
      {
        AddOneMore(before.search, es, i);
        hide Add;
        known, pending := known + [es[i]], pending + [es[i]];
      }
      assert es[..|es|] == es;
    }

    /** The timer that is armed fires. */
    method TimerFired()
      requires Settled(Now()) && Bound()
      modifies this
      ensures old(sent) <= sent
      ensures Settled(Now()) && Bound()
      ensures old(timer) == Reconnect && old(state) == Error ==> SamePass(Now().search, NewPass(old(Now()).search))
      ensures old(timer) == ControlTimeout ==> Less(Now().search, old(Now()).search)
      ensures old(timer) != MidiTimeout && old(Sure(Transition(state, TimerEvent(timer)))) ==>
                Went(old(Transition(state, TimerEvent(timer))))
      ensures old(Spent(Now().search, Transition(state, TimerEvent(timer)))) ==>
                && state == Error && timer == Reconnect
                && Now().search == Found(old(Now()).search, old(Transition(state, TimerEvent(timer))), SILENT)
      ensures timely == old(timely && timer != MidiTimeout)
    {
      hide Valid, Ready, Settled, After, Less, SamePass, Lands, Landed, Transition, TimerEvent, Calm, Spent, Found;
      ghost var before, promised := Now(), Outside();
      ghost var target := Transition(state, TimerEvent(timer));
      TimerIsReady(before);
      TimerLands(before, promised, before);
      var event := TimerEvent(timer);
      if timer.ControlTimeout? || timer.MidiTimeout? {
        controlSlot := 0;
      }
      timely := timely && timer != MidiTimeout;
      timer := NoTimer;
      assert Now() == Expire(before);
      HandleEvent(event);
      TimerLeaves(before, Now());
      TimerLands(before, promised, Now());
    }

    /** The peer has raised a status for a packet that came in. */
    method StatusArrives(code: nat)
      requires Idle(Now()) && (code < 128 ==> status == code)
      modifies this
      ensures old(sent) <= sent
      ensures Idle(Now()) && Bound() && (old(Settled(Now())) ==> Settled(Now())) && timely == old(timely)
      ensures old(Awaits(ControlPort) && Sure(HeardTo(code == CONTROL_CONNECTED))) ==>
                Went(old(HeardTo(code == CONTROL_CONNECTED)))
      ensures old(Awaits(MidiPort) && Sure(HeardTo(code == CONNECTED))) ==> Went(old(HeardTo(code == CONNECTED)))
    {
      ghost var before := Now();
      IdleFits(before, code >= 128);
      hide Idle, Settled, Came, Fits, Lands, Landed, Transition;
      ghost var fired := Raise(code, 9);
      IdleAfter(before, Now(), fired, code >= 128);
    }

    /** parse_command_ok, past the checks */
    method OkArrives(port: Port)
      requires Idle(Now()) && Bound()
      modifies this
      ensures old(sent) <= sent
      ensures Idle(Now()) && Bound() && (old(Settled(Now())) ==> Settled(Now())) && timely == old(timely)
      ensures old(status) == CONNECTED ==> Now() == old(Now()) && status == CONNECTED
      ensures Answered(port, [])
    {
      hide Idle, Settled, Landed, Lands, Transition;
      AnswersLead();
      if status == CONNECTED {
        return;
      }
      status := SetBit(status, port);
      StatusArrives(status);
    }

    /** parse_command_in: the answer leaves on the port that was asked, then the port counts as connected. */
    method InArrives(port: Port)
      requires Idle(Now()) && Bound()
      modifies this
      ensures old(sent) + [Answer(port)] <= sent
      ensures Idle(Now()) && Bound() && (old(Settled(Now())) ==> Settled(Now())) && timely == old(timely)
      ensures Answered(port, [Answer(port)])
    {
      hide Idle, Settled, Landed, Lands, Came, Fits, Transition;
      AnswersLead();
      ghost var before := Now();
      IdleFits(before, true);
      LandsQuietly(before, Good(port), Outside());
      ghost var fired := SendOnPort(Answer(port), 9);
      IdleAfter(before, Now(), fired, true);
      status := SetBit(status, port);
      StatusArrives(status);
    }

    /** parse_command_by: the bit goes, and what is waited for fails when none is left. */
    method ByArrives(port: Port)
      requires Idle(Now()) && Bound()
      modifies this
      ensures old(sent) <= sent
      ensures Idle(Now()) && Bound() && (old(Settled(Now())) ==> Settled(Now())) && timely == old(timely)
      ensures ClearBit(old(status), port) != NOT_CONNECTED ==>
                status == ClearBit(old(status), port) && Now() == old(Now()) && sent == old(sent)
      ensures ClearBit(old(status), port) == NOT_CONNECTED && old(Awaits(MidiPort) && Sure(DisconnectControl)) ==>
                && Smooth() && Landed(old(Now()), DisconnectControl, old(Outside()), Now())
                && sent == old(sent) + [Goodbye(ControlPort), Invitation(ControlPort)]
    {
      hide Idle, Settled, Landed, Lands, Transition, SentOn, Calm;
      AnswersLead();
      FailureSends(ClearBit(status, port), Outside());
      status := ClearBit(status, port);
      if status == NOT_CONNECTED {
        StatusArrives(DISCONNECTED_PEER_DISCONNECTED);
      }
    }

    /** parse_command_no: on the port that is asked it ends the attempt. */
    method NoArrives(port: Port)
      requires Idle(Now()) && Bound()
      modifies this
      ensures old(sent) <= sent
      ensures Idle(Now()) && Bound() && (old(Settled(Now())) ==> Settled(Now())) && timely == old(timely)
      ensures old(Awaits(ControlPort) && Sure(ResolveNextIpPort)) ==>
                && Smooth() && Landed(old(Now()), ResolveNextIpPort, old(Outside()), Now())
                && sent == old(sent) + [Invitation(ControlPort)] && status == ClearBit(old(status), port)
      ensures old(Awaits(MidiPort) && Sure(DisconnectControl)) ==>
                && Smooth() && Landed(old(Now()), DisconnectControl, old(Outside()), Now())
                && sent == old(sent) + [Goodbye(ControlPort), Invitation(ControlPort)]
                && status == ClearBit(ClearBit(old(status), port), ControlPort)
    {
      hide Idle, Settled, Landed, Lands, Transition, ClearBit, SentOn, Calm;
      AnswersLead();
      FailureSends(ClearBit(status, port), Outside());
      status := ClearBit(status, port);
      StatusArrives(DISCONNECTED_CONNECTION_REJECTED);
    }

    /** The answer to a clock request; the slot that heard it makes room for one that only warns. */
    method CkArrives()
      requires Settled(Now()) && Bound()
      modifies this
      ensures old(sent) <= sent
      ensures Settled(Now()) && Bound() && timely == old(timely)
      ensures !old(ckSlot.ShortSlot? || ckSlot.LongSlot?) ==> Now() == old(Now())
      ensures old(ckSlot.ShortSlot? || ckSlot.LongSlot?) ==>
                && state == old(Transition(state, CkAnswer(Now()))) && ckSlot == WarnSlot
                && (state == Error ==> timer == Reconnect && Now().search == old(Now()).search)
      ensures old((state.SendCkShort? || state.SendCkLong?) && Smooth()) ==>
                && Smooth() && status == old(status) && sent == old(sent) && shortSent == old(shortSent)
                && Now().search == old(Now()).search
    {
      hide Valid, Settled, Transition;
      if !ckSlot.ShortSlot? && !ckSlot.LongSlot? {
        if state.SendCkShort? || state.SendCkLong? {
          AskingListens(Now());
        }
        return;
      }
      HearTime();
      ckSlot := WarnSlot;
    }

    /** The slot, before it makes room. */
    method HearTime()
      requires Settled(Now()) && Bound() && (ckSlot.ShortSlot? || ckSlot.LongSlot?)
      modifies this
      ensures old(sent) <= sent
      ensures Settled(Now().(ckSlot := WarnSlot)) && Bound() && timely == old(timely)
      ensures state == old(Transition(state, CkAnswer(Now())))
      ensures state == Error ==> timer == Reconnect && Now().search == old(Now()).search
      ensures old((state.SendCkShort? || state.SendCkLong?) && Smooth()) ==>
                && Smooth() && status == old(status) && sent == old(sent) && shortSent == old(shortSent)
                && Now().search == old(Now()).search
    {
      hide Lands, Landed, Valid, Ready, Settled, After, SentOn, Calm, AsksTime, Transition;
      ghost var before, promised := Now(), Outside();
      CkIsReady(before);
      if state.SendCkShort? || state.SendCkLong? {
        AskingListens(before);
        AnswerLands(before, promised);
      }
      timer := NoTimer;
      HandleEvent(if ckSlot == ShortSlot && ckCount >= 6 then LatencyMeasured else WaitSendCK);
      WarnSettles(before.(timer := NoTimer), Transition(before.state, CkAnswer(before)), Now());
      if (before.state.SendCkShort? || before.state.SendCkLong?) && promised.opens == promised.sends == [] {
        WaitIsLanded(before, promised, Now());
      }
    }
  }

  // ----- runs from the start

  /** One endpoint is known, its addresses were found, and the first `n` of them did not answer. */
  function Tried(e: Endpoint, found: seq<Address>, n: nat): Search
    requires n < |found|
  {
    Search([e], [], e, found, n, Pass([e], false, [e], [found], 0, found[..n + 1], false, false))
  }

  lemma {:induction false} StartIsEmpty(m: Machine)
    requires Idle(m) && m.state == WaitToStart && m.search.known == []
    ensures m.search.addresses == []
  {
    hide PassLog, CkLog;
  }

  lemma {:induction false} FirstIsTried(s: Search, e: Endpoint, found: seq<Address>, k: nat)
    requires s.known == [] && s.addresses == [] && k < |found|
    ensures Found(Add(s, [e]), TryConnectToAllKnownDNS, Env([found], Refusals(k), [])) == Tried(e, found, k)
  {
    var a := NewPass(Add(s, [e]));
    assert a == Search([e], [e], s.endpoint, [], s.at, Pass([], false, [], [], 0, [], false, false));
    assert ButLast([e]) == [];
    var b := Take(a);
    assert b == Search([e], [], e, [], s.at, Pass([e], true, [], [], 0, [], false, false));
    hide Take, NewPass, Add, Skip;
    assert [] + [found[0]] == found[..1];
    assert Advance(b, found) == Tried(e, found, 0);
    SkippedIsTried(e, found, 0, k);
  }

  lemma {:induction false} SkippedIsTried(e: Endpoint, found: seq<Address>, n: nat, k: nat)
    requires n + k < |found|
    ensures Skip(Tried(e, found, n), k) == Tried(e, found, n + k)
    decreases k
  {
    if k > 0 {
      assert found[..n + 1] + [found[n + 1]] == found[..n + 2];
      SkippedIsTried(e, found, n + 1, k - 1);
    }
  }

  /** As many control ports do not open. */
  function Refusals(k: nat): (s: seq<bool>)
    ensures |s| == k && forall i | 0 <= i < k :: !s[i]
  {
    seq(k, _ => false)
  }

  lemma {:induction false} NextIsTried(e: Endpoint, found: seq<Address>, n: nat, env: Env)
    requires n + 1 + |env.opens| < |found|
    ensures HasNext(Tried(e, found, n), env.answers, |env.opens|)
    ensures Found(Tried(e, found, n), ResolveNextIpPort, env) == Tried(e, found, n + 1 + |env.opens|)
    ensures Skip(Advance(Tried(e, found, n), []), |env.opens|) == Tried(e, found, n + 1 + |env.opens|)
  {
    assert found[..n + 1] + [found[n + 1]] == found[..n + 2];
    SkippedIsTried(e, found, n + 1, |env.opens|);
  }

  /** The client waits for the answer of the address number `n` on its control port, and has handed out this. */
  ghost predicate Trying(c: RtpClient, e: Endpoint, found: seq<Address>, n: nat, sent: seq<Out>)
    requires n < |found|
    reads c
  {
    && Settled(c.Now()) && c.Bound() && c.Smooth() && c.timely && c.state == ConnectControl
    && c.status == NOT_CONNECTED && c.Now().search == Tried(e, found, n) && c.sent == sent
  }

  /** The client is connected to that address and has asked it for the time once. */
  ghost predicate Up(c: RtpClient, e: Endpoint, found: seq<Address>, n: nat, sent: seq<Out>)
    requires n < |found|
    reads c
  {
    && Settled(c.Now()) && c.Bound() && c.Smooth() && c.timely && c.state == SendCkShort && c.shortSent == 1
    && c.status == CONNECTED && c.Now().search == Tried(e, found, n) && c.sent == sent
  }

  lemma {:induction false} WaitIsArmed(m: Machine)
    requires Settled(m) && m.timely
    ensures Idle(m)
    ensures m.state == ConnectControl ==> m.timer == ControlTimeout && m.controlSlot != 0 && m.midiSlot == 0
    ensures m.state == ConnectMidi ==> m.timer == MidiTimeout && m.midiSlot != 0 && m.controlSlot == 0
    ensures m.state == SendCkShort ==> m.timer == CkTimeout && m.ckSlot == ShortSlot
  {
    hide PassLog;
  }

  method FirstTry(e: Endpoint, found: seq<Address>, k: nat) returns (c: RtpClient)
    requires k < |found|
    ensures fresh(c) && Trying(c, e, found, k, [Invitation(ControlPort)])
  {
    hide Idle, Settled, Found, Add, NewPass, SamePass, Tried, Refusals;
    c := new RtpClient();
    c.answers, c.opens := [found], Refusals(k);
    StartIsEmpty(c.Now());
    FirstIsTried(c.Now().search, e, found, k);
    c.AddServerAddress(e);
  }

  /** In what way an address fails. */
  datatype Fate =
    | Shut          // its control port does not open
    | Silent        // no answer comes in time
    | Rejected      // the invitation is rejected
    | HalfShut      // the control port answers, the MIDI port does not open
    | HalfRejected  // the control port answers, the MIDI port rejects

  /** What is handed out for such an address behind its invitation. */
  function Behind(fate: Fate): seq<Out> {
    match fate
    case HalfShut => [Goodbye(ControlPort)]
    case HalfRejected => [Invitation(MidiPort), Goodbye(ControlPort)]
    case _ => []
  }

  /** The address fails; then `k` are given up because their control ports do not open. */
  method NextTry(c: RtpClient, e: Endpoint, found: seq<Address>, n: nat, k: nat, fate: Fate, ghost sent: seq<Out>)
    requires n + 1 + k < |found| && Trying(c, e, found, n, sent) && !fate.Shut?
    modifies c
    ensures Trying(c, e, found, n + 1 + k, sent + Behind(fate) + [Invitation(ControlPort)])
  {
    match fate
    case Silent => NoAnswer(c, e, found, n, k, sent);
    case Rejected => Rejects(c, e, found, n, k, sent);
    case HalfShut => HalfOpens(c, e, found, n, k, sent);
    case HalfRejected => HalfRejects(c, e, found, n, k, sent);
  }

  method NoAnswer(c: RtpClient, e: Endpoint, found: seq<Address>, n: nat, k: nat, ghost sent: seq<Out>)
    requires n + 1 + k < |found| && Trying(c, e, found, n, sent)
    modifies c
    ensures Trying(c, e, found, n + 1 + k, sent + [Invitation(ControlPort)])
  {
    hide Settled, Found, Tried, HasNext, Less, SamePass, Refusals, Spent;
    c.opens := Refusals(k);
    NextIsTried(e, found, n, c.Outside());
    WaitIsArmed(c.Now());
    c.TimerFired();
  }

  method Rejects(c: RtpClient, e: Endpoint, found: seq<Address>, n: nat, k: nat, ghost sent: seq<Out>)
    requires n + 1 + k < |found| && Trying(c, e, found, n, sent)
    modifies c
    ensures Trying(c, e, found, n + 1 + k, sent + [Invitation(ControlPort)])
  {
    hide Settled, Idle, Found, Tried, HasNext, SamePass, Refusals;
    c.opens := Refusals(k);
    NextIsTried(e, found, n, c.Outside());
    WaitIsArmed(c.Now());
    c.NoArrives(ControlPort);
  }

  method HalfOpens(c: RtpClient, e: Endpoint, found: seq<Address>, n: nat, k: nat, ghost sent: seq<Out>)
    requires n + 1 + k < |found| && Trying(c, e, found, n, sent)
    modifies c
    ensures Trying(c, e, found, n + 1 + k, sent + [Goodbye(ControlPort)] + [Invitation(ControlPort)])
  {
    hide Settled, Idle, Tried, Advance, Skip, HasNext, SamePass, Refusals;
    c.opens := [false] + Refusals(k);
    NextIsTried(e, found, n, Env(c.answers, Refusals(k), []));
    assert |c.opens| - 1 == k && c.opens != [];
    WaitIsArmed(c.Now());
    c.OkArrives(ControlPort);
    assert sent + [] + ([Goodbye(ControlPort)] + [Invitation(ControlPort)])
        == sent + [Goodbye(ControlPort)] + [Invitation(ControlPort)];
  }

  method HalfRejects(c: RtpClient, e: Endpoint, found: seq<Address>, n: nat, k: nat, ghost sent: seq<Out>)
    requires n + 1 + k < |found| && Trying(c, e, found, n, sent)
    modifies c
    ensures Trying(c, e, found, n + 1 + k,
                   sent + [Invitation(MidiPort), Goodbye(ControlPort)] + [Invitation(ControlPort)])
  {
    hide Settled, Idle, Tried, Advance, Skip, HasNext, SamePass, Refusals, Trying;
    ControlAnswers(c, e, found, n, sent);
    MidiRejects(c, e, found, n, k, sent + [Invitation(MidiPort)]);
    assert sent + [Invitation(MidiPort)] + [Goodbye(ControlPort), Invitation(ControlPort)]
        == sent + [Invitation(MidiPort), Goodbye(ControlPort)] + [Invitation(ControlPort)];
  }

  /** The client waits for the answer of that address on its MIDI port. */
  ghost predicate HalfWay(c: RtpClient, e: Endpoint, found: seq<Address>, n: nat, sent: seq<Out>)
    requires n < |found|
    reads c
  {
    && Settled(c.Now()) && c.Bound() && c.Smooth() && c.timely && c.state == ConnectMidi
    && c.status == CONTROL_CONNECTED && c.Now().search == Tried(e, found, n) && c.sent == sent
  }

  method ControlAnswers(c: RtpClient, e: Endpoint, found: seq<Address>, n: nat, ghost sent: seq<Out>)
    requires n < |found| && Trying(c, e, found, n, sent)
    modifies c
    ensures HalfWay(c, e, found, n, sent + [Invitation(MidiPort)])
  {
    hide Idle, Settled, Tried, Take, Advance, NewPass, Skip;
    WaitIsArmed(c.Now());
    c.OkArrives(ControlPort);
  }

  method MidiRejects(c: RtpClient, e: Endpoint, found: seq<Address>, n: nat, k: nat, ghost sent: seq<Out>)
    requires n + 1 + k < |found| && HalfWay(c, e, found, n, sent)
    modifies c
    ensures Trying(c, e, found, n + 1 + k, sent + [Goodbye(ControlPort), Invitation(ControlPort)])
  {
    hide Settled, Idle, Tried, Advance, Skip, HasNext, SamePass, Refusals;
    c.opens := Refusals(k);
    NextIsTried(e, found, n, c.Outside());
    WaitIsArmed(c.Now());
    c.NoArrives(MidiPort);
  }

  method BothAnswer(c: RtpClient, e: Endpoint, found: seq<Address>, n: nat, ghost sent: seq<Out>)
    requires n < |found| && Trying(c, e, found, n, sent)
    modifies c
    ensures Up(c, e, found, n, sent + [Invitation(MidiPort), ClockRequest])
  {
    hide Idle, Settled, Tried, Take, Advance, NewPass, Skip, Trying;
    ControlAnswers(c, e, found, n, sent);
    WaitIsArmed(c.Now());
    c.OkArrives(MidiPort);
    assert sent + [Invitation(MidiPort)] + [ClockRequest] == sent + [Invitation(MidiPort), ClockRequest];
  }

  /** How many control ports in a row do not open, from the `i`-th on. */
  function ShutFrom(fates: seq<Fate>, i: nat): (k: nat)
    requires i <= |fates|
    ensures i + k <= |fates| && (i + k < |fates| ==> !fates[i + k].Shut?)
    ensures forall j | i <= j < i + k :: fates[j].Shut?
    decreases |fates| - i
  {
    if i < |fates| && fates[i].Shut? then 1 + ShutFrom(fates, i + 1) else 0
  }

  /** An invitation for each address whose control port opens, and what is handed out behind it. */
  function HandedOut(fates: seq<Fate>): seq<Out> {
    if fates == [] then []
    else
      var last := fates[|fates| - 1];
      HandedOut(fates[..|fates| - 1]) + if last.Shut? then [] else [Invitation(ControlPort)] + Behind(last)
  }

  lemma {:induction false} NothingHandedOut(fates: seq<Fate>, i: nat, k: nat)
    requires i + k <= |fates| && forall j | i <= j < i + k :: fates[j].Shut?
    ensures HandedOut(fates[..i + k]) == HandedOut(fates[..i])
    decreases k
  {
    if k > 0 {
      NothingHandedOut(fates, i, k - 1);
      assert fates[..i + k][..i + k - 1] == fates[..i + k - 1];
      assert HandedOut(fates[..i + k - 1]) + [] == HandedOut(fates[..i + k - 1]);
    }
  }

  lemma {:induction false} OneMoreFails(fates: seq<Fate>, i: nat, k: nat)
    requires i + 1 + k <= |fates| && !fates[i].Shut? && forall j | i + 1 <= j < i + 1 + k :: fates[j].Shut?
    ensures HandedOut(fates[..i + 1 + k]) + [Invitation(ControlPort)]
         == HandedOut(fates[..i]) + [Invitation(ControlPort)] + Behind(fates[i]) + [Invitation(ControlPort)]
  {
    NothingHandedOut(fates, i + 1, k);
    assert fates[..i + 1][..i] == fates[..i];
    assert HandedOut(fates[..i]) + ([Invitation(ControlPort)] + Behind(fates[i]))
        == HandedOut(fates[..i]) + [Invitation(ControlPort)] + Behind(fates[i]);
  }

  lemma {:induction false} NoneHandedOut(fates: seq<Fate>, k: nat)
    requires k <= |fates| && forall j | 0 <= j < k :: fates[j].Shut?
    ensures HandedOut(fates[..k]) + [Invitation(ControlPort)] == [Invitation(ControlPort)]
  {
    NothingHandedOut(fates, 0, k);
    assert fates[..0] == [];
  }

  /**
    * An endpoint is reached at any of its addresses, if this one answers on both ports and
    * all before it fail, each in one of five ways. What has been handed out then is just
    * what these call for, in order, and for the last address an invitation on either port
    * and a clock request.
    */
  method ReachesAnyAddress(e: Endpoint, found: seq<Address>, fates: seq<Fate>) returns (c: RtpClient)
    requires |fates| < |found|
    ensures fresh(c)
    ensures Up(c, e, found, |fates|,
               HandedOut(fates) + [Invitation(ControlPort)] + [Invitation(MidiPort), ClockRequest])
  {
    hide Trying, Up, ShutFrom, HandedOut, Behind;
    var i := ShutFrom(fates, 0);
    NoneHandedOut(fates, i);
    c := FirstTry(e, found, i);
    while i < |fates|
      invariant i <= |fates| && (i < |fates| ==> !fates[i].Shut?)
      invariant fresh(c) && Trying(c, e, found, i, HandedOut(fates[..i]) + [Invitation(ControlPort)])
    {
      var k := ShutFrom(fates, i + 1);
      OneMoreFails(fates, i, k);
      NextTry(c, e, found, i, k, fates[i], HandedOut(fates[..i]) + [Invitation(ControlPort)]);
      i := i + 1 + k;
    }
    assert fates[..|fates|] == fates;
    BothAnswer(c, e, found, |fates|, HandedOut(fates) + [Invitation(ControlPort)]);
  }

  /** The client is connected and keeps the time: it has sent so many short-period requests. */
  ghost predicate Keeps(c: RtpClient, s: Search, state: State, shortSent: nat, sent: seq<Out>)
    reads c
  {
    && Settled(c.Now()) && c.Bound() && c.Smooth() && c.timely && c.state == state
    && c.status == CONNECTED && c.Now().search == s && c.shortSent == shortSent && c.sent == sent
  }

  /** What a connected client waits for, and what its timers and answers lead to. */
  lemma {:induction false} TimeIsKept(m: Machine)
    requires Settled(m)
    ensures m.state == SendCkShort ==>
              && m.ckSlot == ShortSlot
              && Transition(m.state, CkAnswer(m)) == if m.shortSent < 6 then WaitSendCkShort else WaitSendCkLong
    ensures m.state == SendCkLong ==> m.ckSlot == LongSlot && Transition(m.state, CkAnswer(m)) == WaitSendCkLong
    ensures m.state == WaitSendCkShort ==> m.timer == NextCk && Transition(m.state, TimerEvent(m.timer)) == SendCkShort
    ensures m.state == WaitSendCkLong ==> m.timer == NextCk && Transition(m.state, TimerEvent(m.timer)) == SendCkLong
    ensures m.state == WaitSendCkLong || m.state == SendCkLong ==> m.shortSent == 6
  {
    hide PassLog;
  }

  /** An answer in time. */
  method TimeIsHeard(c: RtpClient, ghost s: Search, ghost n: nat, ghost sent: seq<Out>)
    requires Keeps(c, s, SendCkShort, n, sent) || Keeps(c, s, SendCkLong, n, sent)
    modifies c
    ensures old(c.state) == SendCkShort && n < 6 ==> Keeps(c, s, WaitSendCkShort, n, sent)
    ensures old(c.state) == SendCkLong || n >= 6 ==> Keeps(c, s, WaitSendCkLong, n, sent)
  {
    hide Settled, Transition;
    TimeIsKept(c.Now());
    c.CkArrives();
  }

  /** The pause is over. */
  method TimeIsAsked(c: RtpClient, ghost s: Search, ghost n: nat, ghost sent: seq<Out>)
    requires Keeps(c, s, WaitSendCkShort, n, sent) || Keeps(c, s, WaitSendCkLong, n, sent)
    modifies c
    ensures old(c.state) == WaitSendCkShort ==> Keeps(c, s, SendCkShort, n + 1, sent + [ClockRequest])
    ensures old(c.state) == WaitSendCkLong ==> Keeps(c, s, SendCkLong, 6, sent + [ClockRequest])
  {
    hide Settled, Transition, TimerEvent, Take, Advance, Spent, Less, SamePass;
    TimeIsKept(c.Now());
    c.TimerFired();
    TimeIsKept(c.Now());
  }

  /** As many clock requests. */
  function Requests(n: nat): seq<Out> {
    if n == 0 then [] else Requests(n - 1) + [ClockRequest]
  }

  /**
    * A client whose requests are all answered in time sends six of them after short pauses,
    * and from then on one after each long pause: after `rounds` of these it waits for the
    * next, and what it has handed out since it connected are so many requests.
    */
  method KeepsTime(e: Endpoint, found: seq<Address>, fates: seq<Fate>, rounds: nat) returns (c: RtpClient)
    requires |fates| < |found|
    ensures fresh(c) && Settled(c.Now()) && c.state == WaitSendCkLong && c.status == CONNECTED
    ensures c.Now().search == Tried(e, found, |fates|)
    ensures c.sent == HandedOut(fates) + [Invitation(ControlPort), Invitation(MidiPort)] + Requests(6 + rounds)
  {
    hide Settled, Tried, HandedOut;
    ghost var s := Tried(e, found, |fates|);
    c := ReachesAnyAddress(e, found, fates);
    ghost var first := HandedOut(fates) + [Invitation(ControlPort), Invitation(MidiPort)];
    OneRequest(HandedOut(fates));
    SixRequests(c, s, first);
    for i := 0 to rounds
      invariant fresh(c) && Keeps(c, s, WaitSendCkLong, 6, first + Requests(6 + i))
    {
      TimeIsAsked(c, s, 6, first + Requests(6 + i));
      assert first + Requests(6 + i) + [ClockRequest] == first + Requests(6 + i + 1);
      TimeIsHeard(c, s, 6, first + Requests(6 + i + 1));
    }
  }

  lemma {:induction false} OneRequest(handed: seq<Out>)
    ensures handed + [Invitation(ControlPort)] + [Invitation(MidiPort), ClockRequest]
         == handed + [Invitation(ControlPort), Invitation(MidiPort)] + Requests(1)
  {
    assert Requests(0) == [] && Requests(1) == [] + [ClockRequest];
  }

  method SixRequests(c: RtpClient, ghost s: Search, ghost first: seq<Out>)
    requires Keeps(c, s, SendCkShort, 1, first + Requests(1))
    modifies c
    ensures Keeps(c, s, WaitSendCkLong, 6, first + Requests(6))
  {
    hide Keeps;
    for i := 1 to 6
      invariant Keeps(c, s, SendCkShort, i, first + Requests(i))
    {
      KeepsState(c, s, SendCkShort, i, first + Requests(i));
      TimeIsHeard(c, s, i, first + Requests(i));
      KeepsState(c, s, WaitSendCkShort, i, first + Requests(i));
      TimeIsAsked(c, s, i, first + Requests(i));
      assert first + Requests(i) + [ClockRequest] == first + Requests(i + 1);
    }
    KeepsState(c, s, SendCkShort, 6, first + Requests(6));
    TimeIsHeard(c, s, 6, first + Requests(6));
  }

  lemma {:induction false} KeepsState(c: RtpClient, s: Search, state: State, n: nat, sent: seq<Out>)
    requires Keeps(c, s, state, n, sent)
    ensures c.state == state
  {}

  /** The pass that was begun with the last address left over: it has asked for nothing and tried nothing. */
  function Missed(e: Endpoint, n: nat): Search {
    Search([e], [], e, [], 0, Pass([e], false, [], [[]], n, [], true, false))
  }

  lemma {:induction false} LeftOverIsSpent(e: Endpoint, found: seq<Address>)
    requires found != []
    ensures var s := Tried(e, found, |found| - 1);
            && Spent(s, TryConnectToAllKnownDNS)
            && Found(s, TryConnectToAllKnownDNS, SILENT) == Missed(e, |found|)
  {
    var s := Tried(e, found, |found| - 1);
    var a := NewPass(s);
    assert a == s.(pending := [e], pass := Pass([], false, [], [], 0, [], true, false));
    assert ButLast([e]) == [];
    var b := Take(a);
    assert b == s.(pass := Pass([e], true, [], [], 0, [], true, false));
    hide Take, NewPass;
    assert found[|found|..] == [];
    assert Advance(b, []) == Missed(e, |found|);
  }

  /**
    * The answer to a clock request comes after its timeout, while the same address is asked
    * again: the client goes to Error with its address list, and the next pass begins with
    * that list left over. If that address was its last, the pass is over at once, and the
    * client is in Error without having resolved its endpoint or tried any address.
    */
  method LateAnswerLeavesList(e: Endpoint, found: seq<Address>, fates: seq<Fate>) returns (c: RtpClient)
    requires |fates| < |found|
    ensures fresh(c) && Settled(c.Now()) && c.Bound() && c.known == [e] && c.pass.stale && !c.pass.extra
    ensures |fates| + 1 == |found| ==>
              c.state == Error && c.timer == Reconnect && c.Now().search == Missed(e, |found|)
  {
    hide Tried, Spent, Found;
    c := ReachesAnyAddress(e, found, fates);
    TimesOut(c, e, found, |fates|, c.sent);
    LeftOverIsSpent(e, found);
    TriedIs(e, found, |fates|);
    AnswersLate(c);
    TriesAgain(c);
  }

  lemma {:induction false} TriedIs(e: Endpoint, found: seq<Address>, n: nat)
    requires n < |found|
    ensures Tried(e, found, n).known == [e] && Tried(e, found, n).addresses == found
  {}

  /** No answer to a clock request: goodbye on both ports, and the same address is asked again. */
  method TimesOut(c: RtpClient, e: Endpoint, found: seq<Address>, n: nat, ghost sent: seq<Out>)
    requires n < |found| && Up(c, e, found, n, sent)
    modifies c
    ensures Trying(c, e, found, n, sent + [Goodbye(MidiPort), Goodbye(ControlPort), Invitation(ControlPort)])
    ensures c.ckSlot == ShortSlot
  {
    hide Settled, SamePass, Less, Spent, Tried, Lands, Found, Skip, SentOn, Calm;
    WaitIsArmed(c.Now());
    TriedIsInList(e, found, n);
    TimeoutLands(c.Now(), c.Outside());
    c.TimerFired();
  }

  lemma {:induction false} TimeoutLands(m: Machine, env: Env)
    requires m.timely && m.search.at < |m.search.addresses| && env.opens == env.sends == []
    ensures Lands(m, DisconnectBecauseCKTimeout, env)
    ensures Found(m.search, DisconnectBecauseCKTimeout, env) == m.search
    ensures Calm(DisconnectBecauseCKTimeout, CONNECTED, env) == NOT_CONNECTED
    ensures SentOn(DisconnectBecauseCKTimeout, CONNECTED, env)
         == [Goodbye(MidiPort), Goodbye(ControlPort), Invitation(ControlPort)]
  {
    assert Goodbyes(CONNECTED) == [Goodbye(MidiPort), Goodbye(ControlPort)];
  }

  lemma {:induction false} TriedIsInList(e: Endpoint, found: seq<Address>, n: nat)
    requires n < |found|
    ensures Tried(e, found, n).at < |Tried(e, found, n).addresses|
  {}

  method AnswersLate(c: RtpClient)
    requires Settled(c.Now()) && c.Bound() && c.state == ConnectControl && c.ckSlot == ShortSlot
    modifies c
    ensures Settled(c.Now()) && c.Bound() && c.state == Error && c.timer == Reconnect
    ensures c.Now().search == old(c.Now()).search
  {
    hide Settled;
    c.CkArrives();
  }

  method TriesAgain(c: RtpClient)
    requires Settled(c.Now()) && c.Bound() && c.state == Error && c.timer == Reconnect
    modifies c
    ensures Settled(c.Now()) && c.Bound() && c.known == old(c.known) && !c.pass.extra
    ensures c.pass.stale == (old(c.addresses) != [])
    ensures old(Spent(c.Now().search, TryConnectToAllKnownDNS)) ==>
              && c.state == Error && c.timer == Reconnect
              && c.Now().search == Found(old(c.Now()).search, TryConnectToAllKnownDNS, SILENT)
  {
    hide Settled, Lands, Landed, Less, Spent, Found;
    c.TimerFired();
  }
}
