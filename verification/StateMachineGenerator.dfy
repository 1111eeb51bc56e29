/**
  * scripts/statemachine_to_cpp.py: reads the transitions of a state machine from lines of
  * text, and writes the C++ that makes them.
  */
module StateMachineGenerators {
  import opened Wrappers
  import RtpClients

  /** The script works on names; the generator looks at no more than whether two are equal. */
  datatype Transition<S, E> = Transition(source: S, target: S, event: E)

  // ----- RE_TRANSITION: (\w+) --> (\w+)(: (\w+)(\((\w+)\))?)?

  predicate IsWord(c: char) {
    'a' <= c <= 'z' || 'A' <= c <= 'Z' || '0' <= c <= '9' || c == '_'
  }

  predicate IsSpace(c: char) {
    c == ' ' || '\t' <= c <= '\r'
  }

  function StripLeft(s: string): string {
    if s != [] && IsSpace(s[0]) then StripLeft(s[1..]) else s
  }

  function StripRight(s: string): string {
    if s != [] && IsSpace(s[|s| - 1]) then StripRight(s[..|s| - 1]) else s
  }

  function Strip(s: string): string {
    StripRight(StripLeft(s))
  }

  /** Where the word that begins at `at` ends. */
  function WordEnd(s: string, at: nat): (end: nat)
    requires at <= |s|
    ensures at <= end <= |s| && (forall i | at <= i < end :: IsWord(s[i])) && (end < |s| ==> !IsWord(s[end]))
    decreases |s| - at
  {
    if at < |s| && IsWord(s[at]) then WordEnd(s, at + 1) else at
  }

  predicate StartsAt(s: string, at: nat, what: string) {
    at + |what| <= |s| && s[at..at + |what|] == what
  }

  const ARROW := " --> "
  const COLON := ": "

  datatype Line = Skip | Invalid | Read(transition: Transition<string, Option<string>>)

  /** One line, stripped: a comment, an error, or a transition, whose event may be missing. */
  function ParseLine(line: string): Line {
    if line == "" || line[0] == '#' then Skip
    else
      var n := WordEnd(line, 0);
      if n == 0 || !StartsAt(line, n, ARROW) then Invalid
      else
        var t := n + |ARROW|;
        var m := WordEnd(line, t);
        if m == t then Invalid
        else
          Read(Transition(line[..n], line[t..m],
                          if StartsAt(line, m, COLON) && WordEnd(line, m + |COLON|) > m + |COLON|
                          then Some(line[m + |COLON|..WordEnd(line, m + |COLON|)]) else None))
  }

  ghost predicate Word(s: string) {
    s != "" && forall i | 0 <= i < |s| :: IsWord(s[i])
  }

  lemma {:induction false} WordEndIs(s: string, at: nat, end: nat)
    requires at <= end <= |s| && (forall i | at <= i < end :: IsWord(s[i])) && (end < |s| ==> !IsWord(s[end]))
    ensures WordEnd(s, at) == end
    decreases end - at
  {
    if at < end {
      WordEndIs(s, at + 1, end);
    }
  }

  lemma {:induction false} ParseParts(line: string, n: nat, m: nat, k: nat)
    requires 0 < n && n + |ARROW| < m && m + |COLON| < k <= |line|
    requires WordEnd(line, 0) == n && StartsAt(line, n, ARROW)
    requires WordEnd(line, n + |ARROW|) == m && StartsAt(line, m, COLON) && WordEnd(line, m + |COLON|) == k
    ensures ParseLine(line) == Read(Transition(line[..n], line[n + |ARROW|..m], Some(line[m + |COLON|..k])))
  {
    assert IsWord(line[0]);
  }

  /** What is written as a transition is read as that transition; a guard or anything else may follow. */
  lemma {:induction false} ParseInvertsWriting(source: string, target: string, event: string, rest: string)
    requires Word(source) && Word(target) && Word(event) && (rest != "" ==> !IsWord(rest[0]))
    ensures ParseLine(source + ARROW + target + COLON + event + rest) == Read(Transition(source, target, Some(event)))
  {
    var line := source + ARROW + target + COLON + event + rest;
    var n := |source|;
    var t := n + |ARROW|;
    var m := t + |target|;
    var e := m + |COLON|;
    var k := e + |event|;
    WrittenParts(source, target, event, rest);
    assert line[n] == line[n..t][0] && line[m] == line[m..e][0];
    assert k < |line| ==> line[k] == line[k..][0];
    assert line[..n] == line[0..n];
    assert StartsAt(line, n, ARROW) && StartsAt(line, m, COLON);
    hide StartsAt, ParseLine, Word;
    WordAt(line, 0, n);
    WordAt(line, t, m);
    WordAt(line, e, k);
    ParseParts(line, n, m, k);
  }

  lemma {:induction false} WordAt(s: string, at: nat, end: nat)
    requires at < end <= |s| && Word(s[at..end]) && (end < |s| ==> !IsWord(s[end]))
    ensures WordEnd(s, at) == end
  {
    assert forall i | at <= i < end :: s[i] == s[at..end][i - at];
    WordEndIs(s, at, end);
  }

  lemma {:induction false} WrittenParts(source: string, target: string, event: string, rest: string)
    ensures var line := source + ARROW + target + COLON + event + rest;
            var n := |source|;
            var t := n + |ARROW|;
            var m := t + |target|;
            var e := m + |COLON|;
            var k := e + |event|;
            && |line| == k + |rest| && line[..n] == source && line[n..t] == ARROW && line[t..m] == target
            && line[m..e] == COLON && line[e..k] == event && line[k..] == rest
  {}

  lemma {:induction false} StripIndent(n: nat, line: string)
    requires line != "" && !IsSpace(line[0]) && !IsSpace(line[|line| - 1])
    ensures Strip(seq(n, _ => ' ') + line) == line
  {
    var pre: string := seq(n, _ => ' ');
    if n == 0 {
      assert pre + line == line;
    } else {
      assert (pre + line)[1..] == seq(n - 1, _ => ' ') + line;
      StripIndent(n - 1, line);
    }
  }

  // ----- parse_state_machine

  function AddNew<T(==)>(s: seq<T>, x: T): seq<T> {
    if x in s then s else s + [x]
  }

  function StatesOf<S(==), E>(error: S, ts: seq<Transition<S, E>>): seq<S> {
    if ts == [] then [error]
    else
      var t := ts[|ts| - 1];
      AddNew(AddNew(StatesOf(error, ts[..|ts| - 1]), t.source), t.target)
  }

  function EventsOf<S, E(==)>(ts: seq<Transition<S, E>>): seq<E> {
    if ts == [] then [] else AddNew(EventsOf(ts[..|ts| - 1]), ts[|ts| - 1].event)
  }

  ghost predicate Distinct<T>(s: seq<T>) {
    forall i, j | 0 <= i < j < |s| :: s[i] != s[j]
  }

  ghost predicate IsEnd<S, E>(t: Transition<S, E>, s: S) {
    t.source == s || t.target == s
  }

  lemma {:induction false} AddNewAdds<T>(s: seq<T>, x: T)
    requires Distinct(s)
    ensures Distinct(AddNew(s, x)) && s <= AddNew(s, x) && forall y :: y in AddNew(s, x) <==> y in s || y == x
  {}

  /** Nothing else is a state. */
  lemma {:induction false} StatesAreEnds<S, E>(error: S, ts: seq<Transition<S, E>>, s: S)
    requires s in StatesOf(error, ts) && s != error
    ensures exists t :: t in ts && IsEnd(t, s)
  {
    var n := |ts| - 1;
    if s in StatesOf(error, ts[..n]) {
      StatesAreEnds(error, ts[..n], s);
      var u :| u in ts[..n] && IsEnd(u, s);
      assert u in ts;
    } else {
      assert ts[n] in ts && IsEnd(ts[n], s);
    }
  }

  /** The states: Error first, nothing twice. */
  lemma {:induction false} StatesAreDistinct<S, E>(error: S, ts: seq<Transition<S, E>>)
    ensures var states := StatesOf(error, ts); Distinct(states) && states != [] && states[0] == error
  {
    if ts != [] {
      var before, t := StatesOf(error, ts[..|ts| - 1]), ts[|ts| - 1];
      StatesAreDistinct(error, ts[..|ts| - 1]);
      hide Distinct, AddNew;
      AddNewAdds(before, t.source);
      AddNewAdds(AddNew(before, t.source), t.target);
    }
  }

  /** And every source and every target is one of them. */
  lemma {:induction false} StatesAreComplete<S, E>(error: S, ts: seq<Transition<S, E>>, t: Transition<S, E>)
    requires t in ts
    ensures t.source in StatesOf(error, ts) && t.target in StatesOf(error, ts)
  {
    var n := |ts| - 1;
    if t != ts[n] {
      assert t in ts[..n];
      StatesAreComplete(error, ts[..n], t);
    }
  }

  lemma {:induction false} EventsAreComplete<S, E>(ts: seq<Transition<S, E>>)
    ensures var events := EventsOf(ts);
            && Distinct(events) && (forall t | t in ts :: t.event in events)
            && (forall e | e in events :: exists t :: t in ts && t.event == e)
  {
    if ts != [] {
      var n := |ts| - 1;
      EventsAreComplete(ts[..n]);
      assert ts == ts[..n] + [ts[n]];
      forall e | e in EventsOf(ts)
        ensures exists t :: t in ts && t.event == e
      {
        if e in EventsOf(ts[..n]) {
          var u :| u in ts[..n] && u.event == e;
          assert u in ts;
        } else {
          assert ts[n] in ts && ts[n].event == e;
        }
      }
    }
  }

  /** The transitions that the lines list, if all of them can be read. */
  function TransitionsOf(lines: seq<string>): Option<seq<Transition<string, Option<string>>>> {
    if lines == [] then Some([])
    else
      var before := TransitionsOf(lines[..|lines| - 1]);
      if before.None? then None
      else
        match ParseLine(Strip(lines[|lines| - 1]))
        case Skip => before
        case Invalid => None
        case Read(t) => Some(before.value + [t])
  }

  type Named = Transition<string, Option<string>>

  /** A guard or the like: it does not go on with the event's name, and does not end in a space. */
  ghost predicate MayFollow(rest: string) {
    rest != "" ==> !IsWord(rest[0]) && !IsSpace(rest[|rest| - 1])
  }

  function Indented(n: nat, t: Named, rest: string): string
    requires t.event.Some?
  {
    seq(n, _ => ' ') + (t.source + ARROW + t.target + COLON + t.event.value + rest)
  }

  /** The line lists the transition, indented as it may be. */
  ghost predicate Lists(line: string, t: Named) {
    && t.event.Some? && Word(t.source) && Word(t.target) && Word(t.event.value)
    && exists n: nat, rest: string :: MayFollow(rest) && line == Indented(n, t, rest)
  }

  lemma {:induction false} ListedLineIsRead(line: string, t: Named)
    requires Lists(line, t)
    ensures ParseLine(Strip(line)) == Read(t)
  {
    var n: nat, rest: string :| MayFollow(rest) && line == Indented(n, t, rest);
    var text := t.source + ARROW + t.target + COLON + t.event.value + rest;
    var e := t.event.value;
    WrittenParts(t.source, t.target, e, rest);
    assert text[0] == t.source[0];
    assert text[|text| - 1] == if rest == "" then e[|e| - 1] else rest[|rest| - 1];
    hide Strip, ParseLine;
    StripIndent(n, text);
    ParseInvertsWriting(t.source, t.target, e, rest);
  }

  /** A file that lists transitions, one a line, is read as just these, in their order. */
  lemma {:induction false} FileIsReadBack(lines: seq<string>, ts: seq<Named>)
    requires |lines| == |ts| && forall i | 0 <= i < |ts| :: Lists(lines[i], ts[i])
    ensures TransitionsOf(lines) == Some(ts)
  {
    hide Lists, ParseLine, Strip;
    if ts != [] {
      var n := |ts| - 1;
      FileIsReadBack(lines[..n], ts[..n]);
      ListedLineIsRead(lines[n], ts[n]);
      assert ts == ts[..n] + [ts[n]];
    }
  }

  datatype StateMachine = StateMachine(
    states: seq<string>,
    events: seq<Option<string>>,
    transitions: seq<Transition<string, Option<string>>>)

  lemma {:induction false} InvalidStays(lines: seq<string>, k: nat)
    requires k <= |lines| && TransitionsOf(lines[..k]).None?
    ensures TransitionsOf(lines).None?
    decreases |lines|
  {
    if k < |lines| {
      assert lines[..|lines| - 1][..k] == lines[..k];
      InvalidStays(lines[..|lines| - 1], k);
    } else {
      assert lines[..k] == lines;
    }
  }

  /** parse_state_machine, on the lines of the text; the first of them is passed over. */
  method ParseStateMachine(text: seq<string>) returns (stm: Option<StateMachine>)
    requires text != []
    ensures stm.None? <==> TransitionsOf(text[1..]).None?
    ensures stm.Some? ==>
              && TransitionsOf(text[1..]) == Some(stm.value.transitions)
              && stm.value.states == StatesOf("Error", stm.value.transitions)
              && stm.value.events == EventsOf(stm.value.transitions)
  {
    var lines := text[1..];
    var transitions: seq<Transition<string, Option<string>>>, states, events := [], ["Error"], [];
    for i := 0 to |lines|
      invariant TransitionsOf(lines[..i]) == Some(transitions)
      invariant states == StatesOf("Error", transitions) && events == EventsOf(transitions)
    {
      assert lines[..i + 1][..i] == lines[..i];
      match ParseLine(Strip(lines[i])) {
        case Skip =>
        case Invalid =>
          InvalidStays(lines, i + 1);
          return None;
        case Read(t) =>
          assert (transitions + [t])[..|transitions|] == transitions;
          if t.event !in events {
            events := events + [t.event];
          }
          if t.source !in states {
            states := states + [t.source];
          }
          if t.target !in states {
            states := states + [t.target];
          }
          transitions := transitions + [t];
      }
    }
    assert lines[..|lines|] == lines;
    return Some(StateMachine(states, events, transitions));
  }

  // ----- generate_cpp_source: the nested switch of handle_event

  datatype Code<S, E> =
    | SwitchOldState
    | CaseState(state: S)
    | SwitchEvent
    | CaseEvent(event: E)
    | Assign(target: S)
    | Break
    | Default
    | Close

  function Case<S(==), E>(s: S, t: Transition<S, E>): seq<Code<S, E>> {
    if t.source == s then [CaseEvent(t.event), Assign(t.target), Break] else []
  }

  /** The cases of one state. */
  function Cases<S(==), E>(s: S, ts: seq<Transition<S, E>>): seq<Code<S, E>> {
    if ts == [] then [] else Case(s, ts[0]) + Cases(s, ts[1..])
  }

  function Block<S(==), E>(s: S, ts: seq<Transition<S, E>>): seq<Code<S, E>> {
    [CaseState(s), SwitchEvent] + Cases(s, ts) + [Default, Close, Break]
  }

  function Blocks<S(==), E>(states: seq<S>, ts: seq<Transition<S, E>>): seq<Code<S, E>> {
    if states == [] then [] else Block(states[0], ts) + Blocks(states[1..], ts)
  }

  function Switch<S(==), E>(states: seq<S>, ts: seq<Transition<S, E>>): seq<Code<S, E>> {
    [SwitchOldState] + Blocks(states, ts) + [Close]
  }

  method GenerateSwitch<S(==), E>(states: seq<S>, ts: seq<Transition<S, E>>) returns (code: seq<Code<S, E>>)
    ensures code == Switch(states, ts)
  {
    code := [SwitchOldState];
    for i := 0 to |states|
      invariant code + Blocks(states[i..], ts) == [SwitchOldState] + Blocks(states, ts)
    {
      var block := GenerateBlock(states[i], ts);
      assert states[i..][1..] == states[i + 1..];
      assert code + (block + Blocks(states[i + 1..], ts)) == (code + block) + Blocks(states[i + 1..], ts);
      code := code + block;
    }
    code := code + [Close];
  }

  /** The inner loop. */
  method GenerateBlock<S(==), E>(s: S, ts: seq<Transition<S, E>>) returns (code: seq<Code<S, E>>)
    ensures code == Block(s, ts)
  {
    code := [CaseState(s), SwitchEvent];
    for j := 0 to |ts|
      invariant code + Cases(s, ts[j..]) == [CaseState(s), SwitchEvent] + Cases(s, ts)
    {
      assert ts[j..][1..] == ts[j + 1..];
      ghost var rest, case_ := Cases(s, ts[j + 1..]), Case(s, ts[j]);
      assert code + (case_ + rest) == (code + case_) + rest;
      code := code + if ts[j].source == s then [CaseEvent(ts[j].event), Assign(ts[j].target), Break] else [];
    }
    code := code + [Default, Close, Break];
  }

  // ----- what the C++ does: a switch jumps to the label, and runs on until a break

  /** At the outer switch, looking for the label of the state. */
  function Seek<S(==), E(==)>(code: seq<Code<S, E>>, s: S, e: E, state: S): S
    decreases |code|
  {
    if code == [] then state
    else if code[0].CaseState? && code[0].state == s then Outer(code[1..], s, e, state)
    else Seek(code[1..], s, e, state)
  }

  /** Inside the outer switch, running. */
  function Outer<S(==), E(==)>(code: seq<Code<S, E>>, s: S, e: E, state: S): S
    decreases |code|
  {
    if code == [] || code[0].Break? || code[0].Close? then state
    else if code[0].SwitchEvent? then SeekEvent(code[1..], s, e, state)
    else if code[0].Assign? then Outer(code[1..], s, e, code[0].target)
    else Outer(code[1..], s, e, state)
  }

  /** At the inner switch, looking for the label of the event; `default:;` is last and does nothing. */
  function SeekEvent<S(==), E(==)>(code: seq<Code<S, E>>, s: S, e: E, state: S): S
    decreases |code|
  {
    if code == [] then state
    else if code[0].CaseEvent? && code[0].event == e then Inner(code[1..], s, e, state)
    else if code[0].Close? then Outer(code[1..], s, e, state)
    else SeekEvent(code[1..], s, e, state)
  }

  /** Inside the inner switch, running. */
  function Inner<S(==), E(==)>(code: seq<Code<S, E>>, s: S, e: E, state: S): S
    decreases |code|
  {
    if code == [] then state
    else if code[0].Break? then Leave(code[1..], s, e, state)
    else if code[0].Close? then Outer(code[1..], s, e, state)
    else if code[0].Assign? then Inner(code[1..], s, e, code[0].target)
    else Inner(code[1..], s, e, state)
  }

  /** A break: on to the end of the inner switch. */
  function Leave<S(==), E(==)>(code: seq<Code<S, E>>, s: S, e: E, state: S): S
    decreases |code|
  {
    if code == [] then state
    else if code[0].Close? then Outer(code[1..], s, e, state)
    else Leave(code[1..], s, e, state)
  }

  /** The target that the list has for a state and an event, or else Error. */
  function Listed<S(==), E(==)>(ts: seq<Transition<S, E>>, s: S, e: E, error: S): S {
    if ts == [] then error
    else if ts[0].source == s && ts[0].event == e then ts[0].target
    else Listed(ts[1..], s, e, error)
  }

  /** No two transitions of a state for the same event. */
  ghost predicate NoneRepeated<S, E>(ts: seq<Transition<S, E>>) {
    forall i, j | 0 <= i < j < |ts| && ts[i].source == ts[j].source :: ts[i].event != ts[j].event
  }

  lemma {:induction false} ListedIsListed<S, E>(ts: seq<Transition<S, E>>, s: S, e: E, error: S)
    requires NoneRepeated(ts)
    ensures forall t | t in ts && t.source == s && t.event == e :: Listed(ts, s, e, error) == t.target
    ensures (forall t | t in ts :: t.source != s || t.event != e) ==> Listed(ts, s, e, error) == error
  {
    if ts != [] {
      assert NoneRepeated(ts[1..]);
      ListedIsListed(ts[1..], s, e, error);
      forall t | t in ts && t.source == s && t.event == e
        ensures Listed(ts, s, e, error) == t.target
      {
        var k :| 0 <= k < |ts| && ts[k] == t;
        assert k > 0 ==> t in ts[1..];
      }
    }
  }

  // ----- the code does what the list says

  lemma {:induction false} CasesHoldNoLabels<S, E>(s: S, ts: seq<Transition<S, E>>)
    ensures forall c | c in Cases(s, ts) :: !c.CaseState? && !c.Close?
  {
    if ts != [] {
      CasesHoldNoLabels(s, ts[1..]);
    }
  }

  lemma {:induction false} LeaveSkips<S, E>(xs: seq<Code<S, E>>, rest: seq<Code<S, E>>, s: S, e: E, state: S)
    requires forall c | c in xs :: !c.Close?
    ensures Leave(xs + rest, s, e, state) == Leave(rest, s, e, state)
    decreases |xs|
  {
    if xs == [] {
      assert xs + rest == rest;
    } else {
      assert (xs + rest)[1..] == xs[1..] + rest;
      LeaveSkips(xs[1..], rest, s, e, state);
    }
  }

  lemma {:induction false} SeekSkips<S, E>(xs: seq<Code<S, E>>, rest: seq<Code<S, E>>, s: S, e: E, state: S)
    requires forall c | c in xs :: c.CaseState? ==> c.state != s
    ensures Seek(xs + rest, s, e, state) == Seek(rest, s, e, state)
    decreases |xs|
  {
    if xs == [] {
      assert xs + rest == rest;
    } else {
      assert (xs + rest)[1..] == xs[1..] + rest;
      SeekSkips(xs[1..], rest, s, e, state);
    }
  }

  /** The end of a block. */
  function Tail<S, E>(rest: seq<Code<S, E>>): seq<Code<S, E>> {
    [Default, Close, Break] + rest
  }

  lemma {:induction false} TailLeaves<S, E>(rest: seq<Code<S, E>>, s: S, e: E, state: S)
    ensures Leave(Tail(rest), s, e, state) == state && SeekEvent(Tail(rest), s, e, state) == state
  {
    var tail := Tail(rest);
    assert tail[1..] == [Close, Break] + rest;
    assert ([Close, Break] + rest)[1..] == [Break] + rest;
    assert Outer([Break] + rest, s, e, state) == state;
  }

  lemma {:induction false} CaseSteps<S, E>(f: E, target: S, tail: seq<Code<S, E>>)
    ensures ([CaseEvent(f), Assign(target), Break] + tail)[1..] == [Assign(target), Break] + tail
    ensures ([Assign(target), Break] + tail)[1..] == [Break] + tail
    ensures ([Break] + tail)[1..] == tail
  {}

  /** A case that matches is run, up to its break. */
  lemma {:induction false} CaseRuns<S, E>(target: S, more: seq<Code<S, E>>, rest: seq<Code<S, E>>, s: S, e: E, state: S)
    requires forall c | c in more :: !c.Close?
    ensures SeekEvent([CaseEvent(e), Assign(target), Break] + (more + Tail(rest)), s, e, state) == target
  {
    var tail := more + Tail(rest);
    CaseSteps(e, target, tail);
    LeaveSkips(more, Tail(rest), s, e, target);
    TailLeaves(rest, s, e, target);
    hide Tail;
    assert Inner([Break] + tail, s, e, target) == Leave(tail, s, e, target);
    assert Inner([Assign(target), Break] + tail, s, e, state) == Inner([Break] + tail, s, e, target);
    assert SeekEvent([CaseEvent(e), Assign(target), Break] + tail, s, e, state)
        == Inner([Assign(target), Break] + tail, s, e, state);
  }

  lemma {:induction false} CasePasses<S, E>(f: E, target: S, tail: seq<Code<S, E>>, s: S, e: E, state: S)
    requires f != e
    ensures SeekEvent([CaseEvent(f), Assign(target), Break] + tail, s, e, state) == SeekEvent(tail, s, e, state)
  {
    CaseSteps(f, target, tail);
    assert SeekEvent([Break] + tail, s, e, state) == SeekEvent(tail, s, e, state);
    assert SeekEvent([Assign(target), Break] + tail, s, e, state) == SeekEvent([Break] + tail, s, e, state);
    assert SeekEvent([CaseEvent(f), Assign(target), Break] + tail, s, e, state)
        == SeekEvent([Assign(target), Break] + tail, s, e, state);
  }

  lemma {:induction false} CasesAreListed<S, E>(
      ts: seq<Transition<S, E>>, rest: seq<Code<S, E>>, s: S, e: E, state: S)
    ensures SeekEvent(Cases(s, ts) + Tail(rest), s, e, state) == Listed(ts, s, e, state)
  {
    if ts == [] {
      TailLeaves(rest, s, e, state);
      assert Cases(s, ts) + Tail(rest) == Tail(rest);
    } else {
      CasesAreListed(ts[1..], rest, s, e, state);
      CasesHoldNoLabels(s, ts[1..]);
      var more := Cases(s, ts[1..]);
      assert (Case(s, ts[0]) + more) + Tail(rest) == Case(s, ts[0]) + (more + Tail(rest));
      hide Tail;
      if ts[0].source == s {
        if ts[0].event == e {
          CaseRuns(ts[0].target, more, rest, s, e, state);
        } else {
          CasePasses(ts[0].event, ts[0].target, more + Tail(rest), s, e, state);
        }
      } else {
        assert Case(s, ts[0]) + (more + Tail(rest)) == more + Tail(rest);
      }
    }
  }

  lemma {:induction false} BlockRuns<S, E>(
      ts: seq<Transition<S, E>>, rest: seq<Code<S, E>>, s: S, e: E, state: S)
    ensures Seek(Block(s, ts) + rest, s, e, state) == Listed(ts, s, e, state)
  {
    var code := Cases(s, ts) + Tail(rest);
    assert Block(s, ts) + rest == [CaseState(s), SwitchEvent] + code;
    assert ([CaseState(s), SwitchEvent] + code)[1..] == [SwitchEvent] + code;
    assert ([SwitchEvent] + code)[1..] == code;
    hide Cases, Tail, Block;
    CasesAreListed(ts, rest, s, e, state);
  }

  lemma {:induction false} BlocksRun<S, E>(
      states: seq<S>, ts: seq<Transition<S, E>>, rest: seq<Code<S, E>>, s: S, e: E, state: S)
    requires s in states
    ensures Seek(Blocks(states, ts) + rest, s, e, state) == Listed(ts, s, e, state)
  {
    var block, more := Block(states[0], ts), Blocks(states[1..], ts);
    assert (block + more) + rest == block + (more + rest);
    if states[0] == s {
      BlockRuns(ts, more + rest, s, e, state);
    } else {
      CasesHoldNoLabels(states[0], ts);
      SeekSkips(block, more + rest, s, e, state);
      BlocksRun(states[1..], ts, rest, s, e, state);
    }
  }

  /**
    * The code that is written, run on any collected state and any event, gives the target
    * that the list has for them, and Error if it has none.
    */
  lemma {:induction false} SwitchDoesWhatIsListed<S, E>(ts: seq<Transition<S, E>>, error: S, s: S, e: E)
    requires NoneRepeated(ts) && s in StatesOf(error, ts)
    ensures var r := Seek(Switch(StatesOf(error, ts), ts), s, e, error);
            && (forall t | t in ts && t.source == s && t.event == e :: r == t.target)
            && ((forall t | t in ts :: t.source != s || t.event != e) ==> r == error)
  {
    var states := StatesOf(error, ts);
    var code := Blocks(states, ts) + [Close];
    assert Switch(states, ts) == [SwitchOldState] + code;
    assert ([SwitchOldState] + code)[1..] == code;
    BlocksRun(states, ts, [Close], s, e, error);
    ListedIsListed(ts, s, e, error);
  }

  // ----- when it is C++ at all

  /** Two equal labels in one switch are an error in C++. */
  ghost predicate LabelsDistinct<S, E>(code: seq<Code<S, E>>) {
    forall i, j | 0 <= i < j < |code| && code[i].CaseEvent? && code[j].CaseEvent? :: code[i] != code[j]
  }

  ghost predicate NoneRepeatedFor<S, E>(ts: seq<Transition<S, E>>, s: S) {
    forall i, j | 0 <= i < j < |ts| && ts[i].source == s && ts[j].source == s :: ts[i].event != ts[j].event
  }

  lemma {:induction false} LabelsAreEvents<S, E>(s: S, ts: seq<Transition<S, E>>, c: Code<S, E>)
    requires c.CaseEvent?
    ensures c in Cases(s, ts) <==> exists i :: 0 <= i < |ts| && ts[i].source == s && ts[i].event == c.event
  {
    if ts != [] {
      LabelsAreEvents(s, ts[1..], c);
      var rest := ts[1..];
      if i :| 0 <= i < |rest| && rest[i].source == s && rest[i].event == c.event {
        assert ts[i + 1] == rest[i];
      }
      if ts[0].source == s && ts[0].event == c.event {
        assert Cases(s, ts)[0] == c;
      }
      if i :| 0 < i < |ts| && ts[i].source == s && ts[i].event == c.event {
        assert rest[i - 1] == ts[i];
      }
    }
  }

  lemma {:induction false} LabelsDistinctIff<S, E>(s: S, ts: seq<Transition<S, E>>)
    ensures LabelsDistinct(Cases(s, ts)) <==> NoneRepeatedFor(ts, s)
  {
    if ts != [] {
      var rest := ts[1..];
      LabelsDistinctIff(s, rest);
      RestRepeats(ts, s);
      if ts[0].source == s {
        var mark: Code<S, E> := CaseEvent(ts[0].event);
        LabelsAreEvents(s, rest, mark);
        FirstLabel(mark, ts[0].target, Cases(s, rest));
      } else {
        assert Cases(s, ts) == Cases(s, rest);
      }
    }
  }

  lemma {:induction false} RestRepeats<S, E>(ts: seq<Transition<S, E>>, s: S)
    requires ts != []
    ensures NoneRepeatedFor(ts, s) <==>
              && NoneRepeatedFor(ts[1..], s)
              && (ts[0].source == s ==>
                    forall i | 0 <= i < |ts[1..]| && ts[1..][i].source == s :: ts[1..][i].event != ts[0].event)
  {
    var rest := ts[1..];
    assert forall i | 0 <= i < |rest| :: rest[i] == ts[i + 1];
    assert forall i | 0 < i < |ts| :: ts[i] == rest[i - 1];
  }

  lemma {:induction false} FirstLabel<S, E>(mark: Code<S, E>, target: S, rest: seq<Code<S, E>>)
    requires mark.CaseEvent?
    ensures LabelsDistinct([mark, Assign(target), Break] + rest) <==> LabelsDistinct(rest) && mark !in rest
  {
    var code := [mark, Assign(target), Break] + rest;
    assert code[0] == mark;
    assert forall i | 0 <= i < |rest| :: rest[i] == code[i + 3];
    assert forall i | 3 <= i < |code| :: code[i] == rest[i - 3];
  }

  lemma {:induction false} RepeatedForSomeState<S, E>(ts: seq<Transition<S, E>>, states: seq<S>)
    requires forall i | 0 <= i < |ts| :: ts[i].source in states
    ensures (forall s | s in states :: NoneRepeatedFor(ts, s)) <==> NoneRepeated(ts)
  {
    if forall s | s in states :: NoneRepeatedFor(ts, s) {
      forall i, j | 0 <= i < j < |ts| && ts[i].source == ts[j].source
        ensures ts[i].event != ts[j].event
      {
        assert NoneRepeatedFor(ts, ts[i].source);
      }
    }
  }

  /** The code is C++ if and only if no transition is repeated. */
  lemma {:induction false} CodeIsLegalIff<S, E>(error: S, ts: seq<Transition<S, E>>)
    ensures (forall s | s in StatesOf(error, ts) :: LabelsDistinct(Cases(s, ts))) <==> NoneRepeated(ts)
  {
    hide *;
    forall i | 0 <= i < |ts|
      ensures ts[i].source in StatesOf(error, ts)
    {
      StatesAreComplete(error, ts, ts[i]);
    }
    var states := StatesOf(error, ts);
    RepeatedForSomeState(ts, states);
    if NoneRepeated(ts) {
      forall s | s in states
        ensures LabelsDistinct(Cases(s, ts))
      {
        assert NoneRepeatedFor(ts, s);
        LabelsDistinctIff(s, ts);
      }
    } else {
      var s :| s in states && !NoneRepeatedFor(ts, s);
      LabelsDistinctIff(s, ts);
    }
  }

  // ----- the client's machine

  type ClientTransition = Transition<RtpClients.State, RtpClients.Event>

  /** The lines of lib/STATEMACHINES.md that begin with a state. */
  function From(s: RtpClients.State): seq<ClientTransition> {
    match s
    case WaitToStart => [To(s, RtpClients.PrepareNextDNS, RtpClients.Started)]
    case PrepareNextDNS =>
      [To(s, RtpClients.ResolveNextIpPort, RtpClients.NextReady),
       To(s, RtpClients.Error, RtpClients.ResolveListExhausted)]
    case ResolveNextIpPort =>
      [To(s, RtpClients.PrepareNextDNS, RtpClients.ConnectListExhausted),
       To(s, RtpClients.ResolveNextIpPort, RtpClients.ResolveFailed),
       To(s, RtpClients.ConnectControl, RtpClients.Resolved)]
    case ConnectControl =>
      [To(s, RtpClients.ResolveNextIpPort, RtpClients.ConnectFailed),
       To(s, RtpClients.ConnectMidi, RtpClients.Connected)]
    case ConnectMidi =>
      [To(s, RtpClients.AllConnected, RtpClients.Connected),
       To(s, RtpClients.DisconnectControl, RtpClients.ConnectFailed)]
    case DisconnectControl => [To(s, RtpClients.ResolveNextIpPort, RtpClients.ConnectFailed)]
    case AllConnected => [To(s, RtpClients.SendCkShort, RtpClients.SendCK)]
    case SendCkShort =>
      [To(s, RtpClients.WaitSendCkShort, RtpClients.WaitSendCK),
       To(s, RtpClients.WaitSendCkLong, RtpClients.LatencyMeasured),
       To(s, RtpClients.DisconnectBecauseCKTimeout, RtpClients.Timeout)]
    case WaitSendCkShort => [To(s, RtpClients.SendCkShort, RtpClients.SendCK)]
    case SendCkLong =>
      [To(s, RtpClients.WaitSendCkLong, RtpClients.WaitSendCK),
       To(s, RtpClients.DisconnectBecauseCKTimeout, RtpClients.Timeout)]
    case WaitSendCkLong => [To(s, RtpClients.SendCkLong, RtpClients.SendCK)]
    case DisconnectBecauseCKTimeout => [To(s, RtpClients.ConnectControl, RtpClients.ConnectFailed)]
    case Error => [To(s, RtpClients.TryConnectToAllKnownDNS, RtpClients.Connect)]
    case TryConnectToAllKnownDNS => [To(s, RtpClients.PrepareNextDNS, RtpClients.Connect)]
  }

  function To(s: RtpClients.State, t: RtpClients.State, e: RtpClients.Event): ClientTransition {
    Transition(s, t, e)
  }

  /** The states in the order in which the list has them. */
  const ORDER: seq<RtpClients.State> := [
    RtpClients.WaitToStart, RtpClients.PrepareNextDNS, RtpClients.ResolveNextIpPort, RtpClients.ConnectControl,
    RtpClients.ConnectMidi, RtpClients.DisconnectControl, RtpClients.AllConnected, RtpClients.SendCkShort,
    RtpClients.WaitSendCkShort, RtpClients.SendCkLong, RtpClients.WaitSendCkLong,
    RtpClients.DisconnectBecauseCKTimeout, RtpClients.Error, RtpClients.TryConnectToAllKnownDNS]

  /** The whole list: the lines of one state after those of another. */
  function ClientList(order: seq<RtpClients.State>): seq<ClientTransition> {
    if order == [] then [] else From(order[0]) + ClientList(order[1..])
  }

  lemma {:induction false} EveryStateIsInOrder(s: RtpClients.State)
    ensures s in ORDER && Distinct(ORDER)
  {
    assert ORDER[0] == RtpClients.WaitToStart && ORDER[1] == RtpClients.PrepareNextDNS;
    assert ORDER[2] == RtpClients.ResolveNextIpPort && ORDER[3] == RtpClients.ConnectControl;
    assert ORDER[4] == RtpClients.ConnectMidi && ORDER[5] == RtpClients.DisconnectControl;
    assert ORDER[6] == RtpClients.AllConnected && ORDER[7] == RtpClients.SendCkShort;
    assert ORDER[8] == RtpClients.WaitSendCkShort && ORDER[9] == RtpClients.SendCkLong;
    assert ORDER[10] == RtpClients.WaitSendCkLong && ORDER[11] == RtpClients.DisconnectBecauseCKTimeout;
    assert ORDER[12] == RtpClients.Error && ORDER[13] == RtpClients.TryConnectToAllKnownDNS;
  }

  lemma {:induction false} FromOne(s: RtpClients.State)
    ensures NoneRepeated(From(s)) && forall t | t in From(s) :: t.source == s
  {}

  /** Lists of different states do not repeat each other's transitions. */
  lemma {:induction false} ClientListIsLegal(order: seq<RtpClients.State>)
    requires Distinct(order)
    ensures NoneRepeated(ClientList(order))
    ensures forall t :: t in ClientList(order) <==> t.source in order && t in From(t.source)
  {
    if order != [] {
      var first, rest := From(order[0]), ClientList(order[1..]);
      FromOne(order[0]);
      assert forall i | 0 <= i < |order[1..]| :: order[1..][i] == order[i + 1];
      ClientListIsLegal(order[1..]);
      assert order == [order[0]] + order[1..];
      hide From, ClientList;
      forall t: ClientTransition
        ensures t in first + rest <==> t.source in order && t in From(t.source)
      {
      }
      RepeatedInNeither(first, rest);
    }
  }

  lemma {:induction false} RepeatedInNeither(a: seq<ClientTransition>, b: seq<ClientTransition>)
    requires NoneRepeated(a) && NoneRepeated(b)
    requires forall t, u | t in a && u in b :: t.source != u.source
    ensures NoneRepeated(a + b)
  {
    var c := a + b;
    forall i, j | 0 <= i < |a| <= j < |c|
      ensures c[i].source != c[j].source
    {
      assert c[i] in a && c[j] in b;
    }
  }

  lemma {:induction false} FromTargets(s: RtpClients.State, i: nat)
    requires i < |From(s)|
    ensures From(s)[i].target == RtpClients.Transition(s, From(s)[i].event)
  {}

  lemma {:induction false} FromIsAll(s: RtpClients.State, e: RtpClients.Event)
    requires RtpClients.Transition(s, e) != RtpClients.Error
    ensures exists i :: 0 <= i < |From(s)| && From(s)[i].event == e
  {
    var f := From(s);
    var i := if f[0].event == e then 0 else if |f| > 1 && f[1].event == e then 1 else 2;
    assert i < |f| && f[i].event == e;
  }

  /** What a state's lines say is what handle_event does, and they say all that it does. */
  lemma {:induction false} FromIsTransition(s: RtpClients.State, e: RtpClients.Event)
    ensures forall t | t in From(s) && t.event == e :: t.target == RtpClients.Transition(s, e)
    ensures (forall t | t in From(s) :: t.event != e) ==> RtpClients.Transition(s, e) == RtpClients.Error
  {
    hide *;
    forall t | t in From(s) && t.event == e
      ensures t.target == RtpClients.Transition(s, e)
    {
      var i :| 0 <= i < |From(s)| && From(s)[i] == t;
      FromTargets(s, i);
    }
    if RtpClients.Transition(s, e) != RtpClients.Error {
      FromIsAll(s, e);
      var i :| 0 <= i < |From(s)| && From(s)[i].event == e;
      assert From(s)[i] in From(s);
    }
  }

  lemma {:induction false} ClientListHas(s: RtpClients.State)
    ensures s in StatesOf(RtpClients.Error, ClientList(ORDER))
    ensures NoneRepeated(ClientList(ORDER))
    ensures forall t | t in ClientList(ORDER) && t.source == s :: t in From(s)
    ensures forall t | t in From(s) :: t in ClientList(ORDER) && t.source == s
  {
    EveryStateIsInOrder(s);
    ClientListIsLegal(ORDER);
    FromOne(s);
    var first := From(s)[0];
    assert first in From(s);
    hide ClientList, From, NoneRepeated;
    assert first in ClientList(ORDER);
    StatesAreComplete(RtpClients.Error, ClientList(ORDER), first);
  }

  /** handle_event of the client makes the transitions of the list, as the code written from it does. */
  lemma {:induction false} ClientSwitchIsGenerated(s: RtpClients.State, e: RtpClients.Event)
    ensures var ts := ClientList(ORDER);
            var states := StatesOf(RtpClients.Error, ts);
            s in states && Seek(Switch(states, ts), s, e, RtpClients.Error) == RtpClients.Transition(s, e)
  {
    hide *;
    ClientListHas(s);
    FromIsTransition(s, e);
    SwitchDoesWhatIsListed(ClientList(ORDER), RtpClients.Error, s, e);
    if t :| t in From(s) && t.event == e {
      assert t in ClientList(ORDER);
    }
  }
}
