/**
 The subagent loop: `child_turn`, `absorb_child_stream` and `absorb_steering` of `lib.rs`.

 Everything the loop asks of the outside is an answer of a `World`. What it does is
 written to a log, and the properties are about the log: `Allowed` says, without reading
 the loop, which act may follow which log.
 */
module ChildTurn {
  import opened Wrappers
  import opened Dialogue
  import Strings

  const MAX_ROUNDS: nat := 8
  const MAX_KEY_BYTES: nat := 128
  const U64_MAX: nat := 0xFFFF_FFFF_FFFF_FFFF
  const CANCELLED := "the subagent was cancelled before it answered"
  const NO_ANSWER := "the subagent finished without an answer"
  const OVER_BUDGET := "model input still exceeds its context budget after compaction"
  const BAD_KEY := "idempotency key must be 1..=128 printable ASCII bytes"
  const SPENT_ROUNDS := "the subagent used its 8 rounds without answering"
  const DENIED := "stopped by its supervisor: "

  datatype Event =
    | TextDelta(text: string)
    | ToolCallCompleted(call: Call)
    | Usage(input: nat, output: nat)
    | Other

  type Item = Result<Event, string>

  /** What a request comes back with: a refusal, or a stream that may break off. */
  datatype Reply = Refused(error: string) | Streamed(items: seq<Item>)

  datatype Outcome = Outcome(output: string, success: bool)

  /**
   The answers of the outside, by how often each has been asked: the stop check, the
   parent's messages, the provider, the tools, the observer of results (an error or none)
   and the supervisor (a reason to stop or none).
   */
  datatype World = World(
    base: string,
    fitter: Fitter,
    stop: nat -> bool,
    steer: nat -> seq<string>,
    reply: nat -> Reply,
    tool: nat -> Outcome,
    heard: nat -> Option<string>,
    watch: nat -> Option<string>
  )

  /** What the loop does, in order. `Shown` is what the supervisor sees and says. */
  datatype Act =
    | Poll(stopped: bool)
    | Request(key: string, messages: seq<Message>, reply: Reply)
    | Ran(call: Call, outcome: Outcome)
    | Shown(sequence: nat, success: bool, failures: nat, denial: Option<string>)

  datatype State = State(
    messages: seq<Message>,
    input: nat,
    output: nat,
    polls: nat,
    made: nat,
    failures: nat,
    log: seq<Act>
  )

  // -- Streams ------------------------------------------------------------------

  /** What is read of a stream: everything before its first error. */
  function Read(items: seq<Item>): (events: seq<Event>)
    ensures |events| <= |items|
    ensures forall i :: 0 <= i < |events| ==> items[i] == Ok(events[i])
    ensures |events| < |items| ==> items[|events|].Err?
  {
    if items == [] || items[0].Err? then [] else [items[0].value] + Read(items[1..])
  }

  function Said(events: seq<Event>): string {
    if events == [] then ""
    else
      var last := events[|events| - 1];
      Said(events[..|events| - 1]) + if last.TextDelta? then last.text else ""
  }

  function Asked(events: seq<Event>): seq<Call> {
    if events == [] then []
    else
      var last := events[|events| - 1];
      Asked(events[..|events| - 1]) + if last.ToolCallCompleted? then [last.call] else []
  }

  function InputOf(events: seq<Event>): nat {
    if events == [] then 0
    else
      var last := events[|events| - 1];
      InputOf(events[..|events| - 1]) + if last.Usage? then last.input else 0
  }

  function OutputOf(events: seq<Event>): nat {
    if events == [] then 0
    else
      var last := events[|events| - 1];
      OutputOf(events[..|events| - 1]) + if last.Usage? then last.output else 0
  }

  /** What a 64-bit counter that saturates shows of a sum. */
  function Clamp(n: nat): nat {
    if n <= U64_MAX then n else U64_MAX
  }

  function SaturatingAdd(a: nat, b: nat): nat {
    Clamp(a + b)
  }

  predicate Blank(s: string) {
    Strings.Trim(s) == ""
  }

  function CallContents(calls: seq<Call>): seq<Content> {
    if calls == [] then []
    else [ToolCall(calls[0].id, calls[0].name, calls[0].arguments)] + CallContents(calls[1..])
  }

  /** The model's own words and calls, as they are put into the conversation. */
  function Spoken(events: seq<Event>): Message {
    Message(Assistant,
      (if Blank(Said(events)) then [] else [TextContent(Said(events))]) + CallContents(Asked(events)))
  }

  function Answer(events: seq<Event>): string {
    if Blank(Said(events)) then NO_ANSWER else Said(events)
  }

  function ResultOf(call: Call, o: Outcome): Content {
    ToolResult(call.id, o.output, !o.success)
  }

  /** The parent's messages, each at the end as a user message. */
  function Steered(ms: seq<Message>, instructions: seq<string>): seq<Message>
    decreases |instructions|
  {
    if instructions == [] then ms
    else Steered(ms + [Message(User, [TextContent(instructions[0])])], instructions[1..])
  }

  predicate KeyOk(key: string) {
    1 <= |key| <= MAX_KEY_BYTES && forall c :: c in key ==> '!' <= c <= '~' && c != '"'
  }

  function Key(w: World, round: nat): string {
    w.base + "-" + Strings.Dec(round)
  }

  // -- The loop, from a given point on ---------------------------------------------

  function Polled(w: World, s: State): State {
    s.(polls := s.polls + 1, log := s.log + [Poll(w.stop(s.polls))])
  }

  function CallRun(w: World, call: Call, s: State): State {
    s.(log := s.log + [Ran(call, w.tool(s.made))])
  }

  function CallShown(w: World, s: State): State {
    var o := w.tool(s.made);
    var failures := if o.success then 0 else s.failures + 1;
    s.(made := s.made + 1, failures := failures,
       log := s.log + [Shown(s.made + 1, o.success, failures, w.watch(s.made))])
  }

  /** The calls from the `i`th on, with the results of those before them. */
  function RunCalls(w: World, calls: seq<Call>, i: nat, results: seq<Content>, s: State)
    : (State, Result<seq<Content>, string>)
    requires i <= |calls|
    decreases |calls| - i
  {
    if i == |calls| then (s, Ok(results))
    else
      var p := Polled(w, s);
      if w.stop(s.polls) then (p, Err(CANCELLED))
      else
        var r := CallRun(w, calls[i], p);
        var heard := w.heard(s.made);
        if heard.Some? then (r, Err(heard.value))
        else
          var t := CallShown(w, r);
          var denial := w.watch(s.made);
          if denial.Some? then (t, Err(DENIED + denial.value))
          else RunCalls(w, calls, i + 1, results + [ResultOf(calls[i], w.tool(s.made))], t)
  }

  /** What a request's reply does to the counters. */
  function Counted(s: State, events: seq<Event>): State {
    s.(input := Clamp(s.input + InputOf(events)), output := Clamp(s.output + OutputOf(events)))
  }

  /** The rest of a round whose request is out, and its end: `None` to go on. */
  function AfterReply(w: World, items: seq<Item>, s: State): (State, Option<Result<string, string>>) {
    var events := Read(items);
    var c := Counted(s, events);
    if |events| < |items| then (c, Some(Err(items[|events|].error)))
    else if Asked(events) == [] then (c, Some(Ok(Answer(events))))
    else
      var (t, results) := RunCalls(w, Asked(events), 0, [], c.(messages := c.messages + [Spoken(events)]));
      match results
      case Err(e) => (t, Some(Err(e)))
      case Ok(contents) => (t.(messages := t.messages + [Message(User, contents)]), None)
  }

  function Sent(w: World, round: nat, s: State): State {
    s.(log := s.log + [Request(Key(w, round), s.messages, w.reply(round))])
  }

  function RunRound(w: World, round: nat, s: State): (State, Option<Result<string, string>>) {
    var p := Polled(w, s);
    if w.stop(s.polls) then (p, Some(Err(CANCELLED)))
    else
      var q := p.(messages := Fit(w.fitter, Steered(s.messages, w.steer(round))));
      if w.fitter.estimate(q.messages) > w.fitter.budget then (q, Some(Err(OVER_BUDGET)))
      else if !KeyOk(Key(w, round)) then (q, Some(Err(BAD_KEY)))
      else
        var r := Sent(w, round, q);
        match w.reply(round)
        case Refused(error) => (r, Some(Err(error)))
        case Streamed(items) => AfterReply(w, items, r)
  }

  function RunRounds(w: World, round: nat, s: State): (State, Result<string, string>)
    requires round <= MAX_ROUNDS
    decreases MAX_ROUNDS - round
  {
    if round == MAX_ROUNDS then (s, Err(SPENT_ROUNDS))
    else
      var (t, end) := RunRound(w, round, s);
      if end.Some? then (t, end.value) else RunRounds(w, round + 1, t)
  }

  // -- The code ---------------------------------------------------------------------

  /** One more event heard, in all four things read of a stream. */
  lemma EventStep(heard: seq<Event>, e: Event)
    ensures Said(heard + [e]) == Said(heard) + (if e.TextDelta? then e.text else "")
    ensures Asked(heard + [e]) == Asked(heard) + (if e.ToolCallCompleted? then [e.call] else [])
    ensures InputOf(heard + [e]) == InputOf(heard) + (if e.Usage? then e.input else 0)
    ensures OutputOf(heard + [e]) == OutputOf(heard) + (if e.Usage? then e.output else 0)
  {
    assert (heard + [e])[..|heard|] == heard;
  }

  lemma ClampAdds(a: nat, b: nat, c: nat)
    ensures Clamp(Clamp(a + b) + c) == Clamp(a + (b + c))
  {
  }

  /** What has been made of the events heard, from the counters before them. */
  predicate HeardTo(heard: seq<Event>, before: (nat, nat), answer: string, calls: seq<Call>, now: (nat, nat)) {
    && answer == Said(heard) && calls == Asked(heard)
    && now == (Clamp(before.0 + InputOf(heard)), Clamp(before.1 + OutputOf(heard)))
  }

  /** Saturating at every step is saturating once. */
  lemma HeardStep(heard: seq<Event>, e: Event, before: (nat, nat), answer: string, calls: seq<Call>, now: (nat, nat))
    requires HeardTo(heard, before, answer, calls, now)
    ensures HeardTo(heard + [e], before,
                    answer + (if e.TextDelta? then e.text else ""),
                    calls + (if e.ToolCallCompleted? then [e.call] else []),
                    (if e.Usage? then SaturatingAdd(now.0, e.input) else now.0,
                     if e.Usage? then SaturatingAdd(now.1, e.output) else now.1))
  {
    EventStep(heard, e);
    ClampAdds(before.0, InputOf(heard), if e.Usage? then e.input else 0);
    ClampAdds(before.1, OutputOf(heard), if e.Usage? then e.output else 0);
  }

  /** One subagent turn, with its conversation, counters and log. */
  class Child {
    var messages: seq<Message>
    var input: nat
    var output: nat
    var polls: nat
    var made: nat
    var failures: nat
    var log: seq<Act>

    /** A turn begins on a copy of the request's messages. */
    constructor (task: seq<Message>, spent: (nat, nat))
      ensures Now() == Begin(task, spent)
    {
      messages, input, output, polls, made, failures, log := task, spent.0, spent.1, 0, 0, 0, [];
    }

    function Now(): State
      reads this
    {
      State(messages, input, output, polls, made, failures, log)
    }

    method Check(w: World) returns (stopped: bool)
      modifies `polls, `log
      ensures Now() == Polled(w, old(Now())) && stopped == w.stop(old(polls))
    {
      stopped := w.stop(polls);
      polls, log := polls + 1, log + [Poll(stopped)];
    }

    method AbsorbSteering(instructions: seq<string>)
      modifies `messages
      ensures messages == Steered(old(messages), instructions)
    {
      var rest := instructions;
      while rest != []
        invariant Steered(messages, rest) == Steered(old(messages), instructions)
        decreases |rest|
      {
        messages := messages + [Message(User, [TextContent(rest[0])])];
        rest := rest[1..];
      }
    }

    method AbsorbEvent(e: Event, said: string, asked: seq<Call>) returns (answer: string, calls: seq<Call>)
      modifies `input, `output
      ensures answer == said + if e.TextDelta? then e.text else ""
      ensures calls == asked + if e.ToolCallCompleted? then [e.call] else []
      ensures input == if e.Usage? then SaturatingAdd(old(input), e.input) else old(input)
      ensures output == if e.Usage? then SaturatingAdd(old(output), e.output) else old(output)
    {
      answer, calls := said, asked;
      match e
      case TextDelta(text) =>
        answer := answer + text;
      case ToolCallCompleted(call) =>
        calls := calls + [call];
      case Usage(x, y) =>
        input, output := SaturatingAdd(input, x), SaturatingAdd(output, y);
      case Other =>
    }

    method AbsorbChildStream(items: seq<Item>) returns (answer: string, calls: Result<seq<Call>, string>)
      requires input <= U64_MAX && output <= U64_MAX
      modifies `input, `output
      ensures Now() == Counted(old(Now()), Read(items))
      ensures calls == if |Read(items)| < |items| then Err(items[|Read(items)|].error) else Ok(Asked(Read(items)))
      ensures calls.Ok? ==> answer == Said(Read(items))
    {
      var asked := [];
      answer := "";
      ghost var read, before := Read(items), (input, output);
      for n := 0 to |items|
        invariant n <= |read|
        invariant HeardTo(read[..n], before, answer, asked, (input, output))
      {
        if items[n].Err? {
          assert |read| == n && read[..n] == read;
          return answer, Err(items[n].error);
        }
        assert read[..n + 1] == read[..n] + [items[n].value];
        HeardStep(read[..n], items[n].value, before, answer, asked, (input, output));
        answer, asked := AbsorbEvent(items[n].value, answer, asked);
      }
      assert read[..|items|] == read;
      calls := Ok(asked);
    }

    method InvokeCalls(w: World, calls: seq<Call>) returns (r: Result<seq<Content>, string>)
      modifies `polls, `made, `failures, `log
      ensures (Now(), r) == RunCalls(w, calls, 0, [], old(Now()))
    {
      var results := [];
      for i := 0 to |calls|
        invariant RunCalls(w, calls, i, results, Now()) == RunCalls(w, calls, 0, [], old(Now()))
      {
        var stopped := Check(w);
        if stopped {
          return Err(CANCELLED);
        }
        var outcome := w.tool(made);
        log := log + [Ran(calls[i], outcome)];
        var heard := w.heard(made);
        if heard.Some? {
          return Err(heard.value);
        }
        var denial := w.watch(made);
        made := made + 1;
        failures := if outcome.success then 0 else failures + 1;
        log := log + [Shown(made, outcome.success, failures, denial)];
        results := results + [ToolResult(calls[i].id, outcome.output, !outcome.success)];
        if denial.Some? {
          return Err(DENIED + denial.value);
        }
      }
      return Ok(results);
    }

    /** One pass of the loop: `None` when it goes round again. */
    method Round(w: World, round: nat) returns (end: Option<Result<string, string>>)
      requires input <= U64_MAX && output <= U64_MAX
      modifies this
      ensures (Now(), end) == RunRound(w, round, old(Now()))
      ensures input <= U64_MAX && output <= U64_MAX
    {
      var stopped := Check(w);
      if stopped {
        return Some(Err(CANCELLED));
      }
      AbsorbSteering(w.steer(round));
      messages := Fit(w.fitter, messages);
      if w.fitter.estimate(messages) > w.fitter.budget {
        return Some(Err(OVER_BUDGET));
      }
      var key := Key(w, round);
      if !KeyOk(key) {
        return Some(Err(BAD_KEY));
      }
      var reply := w.reply(round);
      log := log + [Request(key, messages, reply)];
      if reply.Refused? {
        return Some(Err(reply.error));
      }
      var answer, asked := AbsorbChildStream(reply.items);
      if asked.Err? {
        return Some(Err(asked.error));
      }
      var calls := asked.value;
      if calls == [] {
        return Some(Ok(if Blank(answer) then NO_ANSWER else answer));
      }
      var content := if Blank(answer) then [] else [TextContent(answer)];
      messages := messages + [Message(Assistant, content + CallContents(calls))];
      var results := InvokeCalls(w, calls);
      if results.Err? {
        return Some(Err(results.error));
      }
      messages := messages + [Message(User, results.value)];
      return None;
    }

    /** The whole turn is the run from its first round. */
    method Turn(w: World) returns (r: Result<string, string>)
      requires input <= U64_MAX && output <= U64_MAX
      modifies this
      ensures (Now(), r) == RunRounds(w, 0, old(Now()))
    {
      for round := 0 to MAX_ROUNDS
        invariant input <= U64_MAX && output <= U64_MAX
        invariant RunRounds(w, round, Now()) == RunRounds(w, 0, old(Now()))
      {
        var end := Round(w, round);
        if end.Some? {
          return end.value;
        }
      }
      return Err(SPENT_ROUNDS);
    }
  }

  function Begin(task: seq<Message>, spent: (nat, nat)): State {
    State(task, spent.0, spent.1, 0, 0, 0, [])
  }
}
