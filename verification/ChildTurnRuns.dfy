/**
 What holds of every run of the subagent loop. `Good` says which logs a turn may leave,
 act by act and without the loop; `TurnIsGood` shows that the loop leaves only those, and
 the other results are read off a good log.
 */
module ChildTurnRuns {
  import opened Wrappers
  import opened Dialogue
  import opened ChildTurn
  import Strings

  // -- Reading a log ------------------------------------------------------------

  function Last(log: seq<Act>): Act
    requires log != []
  {
    log[|log| - 1]
  }

  function Earlier(log: seq<Act>): seq<Act>
    requires log != []
  {
    log[..|log| - 1]
  }

  predicate Whole(reply: Reply) {
    reply.Streamed? && |Read(reply.items)| == |reply.items|
  }

  /** The calls a reply asks for; none unless the stream came to its end. */
  function Wanted(reply: Reply): seq<Call> {
    if Whole(reply) then Asked(Read(reply.items)) else []
  }

  /** Nothing may follow a seen cancellation, a denial, or a reply without calls. */
  predicate Halts(a: Act) {
    match a
    case Poll(stopped) => stopped
    case Request(_, _, reply) => Wanted(reply) == []
    case Ran(_, _) => false
    case Shown(_, _, _, denial) => denial.Some?
  }

  function Requests(log: seq<Act>): nat {
    if log == [] then 0 else Requests(Earlier(log)) + if Last(log).Request? then 1 else 0
  }

  function Polls(log: seq<Act>): nat {
    if log == [] then 0 else Polls(Earlier(log)) + if Last(log).Poll? then 1 else 0
  }

  function Runs(log: seq<Act>): nat {
    if log == [] then 0 else Runs(Earlier(log)) + if Last(log).Ran? then 1 else 0
  }

  /** How many calls failed since the last that worked, as far as the supervisor was shown. */
  function FailedRun(log: seq<Act>): nat {
    if log == [] then 0
    else if Last(log).Shown? then (if Last(log).success then 0 else FailedRun(Earlier(log)) + 1)
    else FailedRun(Earlier(log))
  }

  /** The calls of the last reply that have not run. */
  function Pending(log: seq<Act>): seq<Call> {
    if log == [] then []
    else match Last(log)
      case Request(_, _, reply) => Wanted(reply)
      case Ran(_, _) => (var p := Pending(Earlier(log)); if p == [] then [] else p[1..])
      case _ => Pending(Earlier(log))
  }

  /** The results of the last reply's calls so far. */
  function Results(log: seq<Act>): seq<Content> {
    if log == [] then []
    else match Last(log)
      case Request(_, _, _) => []
      case Ran(call, o) => Results(Earlier(log)) + [ResultOf(call, o)]
      case _ => Results(Earlier(log))
  }

  /** The conversation up to the model's last words. */
  function Told(task: seq<Message>, log: seq<Act>): seq<Message> {
    if log == [] then task
    else match Last(log)
      case Request(_, ms, reply) => if Wanted(reply) == [] then ms else ms + [Spoken(Read(reply.items))]
      case _ => Told(task, Earlier(log))
  }

  /** The conversation with the results that answer those words. */
  function Talk(task: seq<Message>, log: seq<Act>): seq<Message> {
    Told(task, log) + if Results(log) == [] then [] else [Message(User, Results(log))]
  }

  /** The tokens an act reports: a request's stream does, up to its first error. */
  function Reported(a: Act): (nat, nat) {
    match a
    case Request(_, _, Streamed(items)) => (InputOf(Read(items)), OutputOf(Read(items)))
    case _ => (0, 0)
  }

  function Spent(log: seq<Act>): (nat, nat) {
    if log == [] then (0, 0)
    else (Spent(Earlier(log)).0 + Reported(Last(log)).0, Spent(Earlier(log)).1 + Reported(Last(log)).1)
  }

  // -- Good logs -------------------------------------------------------------------

  /** The last act was a check that let the turn go on. */
  predicate Cleared(log: seq<Act>) {
    log != [] && Last(log) == Poll(false)
  }

  /** The conversation the next request would carry. */
  function Prepared(w: World, task: seq<Message>, log: seq<Act>): seq<Message> {
    Fit(w.fitter, Steered(Talk(task, log), w.steer(Requests(log))))
  }

  /** A conversation within the budget, under a key of printable characters. */
  predicate MaySend(w: World, key: string, ms: seq<Message>) {
    && w.fitter.estimate(ms) <= w.fitter.budget
    && 1 <= |key| <= 128 && forall c :: c in key ==> '!' <= c <= '~' && c != '"'
  }

  /** Which act may follow which log. */
  predicate Allowed(w: World, task: seq<Message>, log: seq<Act>, a: Act) {
    && (log != [] ==> !Halts(Last(log)))
    && match a
       case Poll(stopped) =>
         && (log != [] ==> Last(log).Request? || Last(log).Shown?)
         && (Pending(log) != [] || Requests(log) < MAX_ROUNDS) && stopped == w.stop(Polls(log))
       case Request(key, ms, reply) =>
         && Cleared(log) && Requests(log) < MAX_ROUNDS && Pending(log) == []
         && key == Key(w, Requests(log)) && ms == Prepared(w, task, log) && MaySend(w, key, ms)
         && reply == w.reply(Requests(log))
       case Ran(call, outcome) =>
         Cleared(log) && Pending(log) != [] && call == Pending(log)[0] && outcome == w.tool(Runs(log))
       case Shown(sequence, success, failures, denial) =>
         && log != [] && Last(log).Ran? && Last(log).outcome.success == success
         && sequence == Runs(log) && (failures == if success then 0 else FailedRun(log) + 1)
         && w.heard(Runs(log) - 1).None? && denial == w.watch(Runs(log) - 1)
  }

  /** What a turn whose log ends so comes to, and why. */
  predicate EndsFor(w: World, task: seq<Message>, log: seq<Act>, end: Result<string, string>) {
    && log != []
    && match Last(log)
       case Poll(stopped) =>
         if stopped then end == Err("the subagent was cancelled before it answered")
         else
           && Pending(log) == [] && !MaySend(w, Key(w, Requests(log)), Prepared(w, task, log))
           && end == Err(
                if w.fitter.estimate(Prepared(w, task, log)) > w.fitter.budget
                then "model input still exceeds its context budget after compaction"
                else "idempotency key must be 1..=128 printable ASCII bytes")
       case Request(_, _, Refused(error)) => end == Err(error)
       case Request(_, _, Streamed(items)) =>
         var events := Read(items);
         if |events| < |items| then end == Err(items[|events|].error)
         else
           && Asked(events) == []
           && end == Ok(if Strings.Trim(Said(events)) == "" then "the subagent finished without an answer" else Said(events))
       case Ran(_, _) => Runs(log) > 0 && w.heard(Runs(log) - 1).Some? && end == Err(w.heard(Runs(log) - 1).value)
       case Shown(_, _, _, denial) =>
         if denial.Some? then end == Err("stopped by its supervisor: " + denial.value)
         else
           && Pending(log) == [] && Requests(log) == 8
           && end == Err("the subagent used its 8 rounds without answering")
  }

  predicate Good(w: World, task: seq<Message>, log: seq<Act>) {
    log == [] || (Good(w, task, Earlier(log)) && Allowed(w, task, Earlier(log), Last(log)))
  }

  lemma Ends(log: seq<Act>, a: Act)
    ensures Earlier(log + [a]) == log && Last(log + [a]) == a
  {
  }

  lemma GoodGrows(w: World, task: seq<Message>, log: seq<Act>, a: Act)
    requires Good(w, task, log) && Allowed(w, task, log, a)
    ensures Good(w, task, log + [a])
  {
    Ends(log, a);
  }

  // -- The loop leaves good logs ------------------------------------------------------

  /** A good log, and token counts that are what it says. */
  predicate Sound(w: World, task: seq<Message>, spent: (nat, nat), s: State) {
    && Good(w, task, s.log)
    && s.input == Clamp(spent.0 + Spent(s.log).0) && s.output == Clamp(spent.1 + Spent(s.log).1)
  }

  /** And the other counters are what the log says. */
  predicate Agrees(w: World, task: seq<Message>, spent: (nat, nat), s: State) {
    Sound(w, task, spent, s) && s.polls == Polls(s.log) && s.made == Runs(s.log) && s.failures == FailedRun(s.log)
  }

  /** The log may go on with a check. */
  predicate Live(s: State) {
    s.log != [] ==> (Last(s.log).Request? || Last(s.log).Shown?) && !Halts(Last(s.log))
  }

  /** What the log shows of the calls under way. */
  predicate Among(task: seq<Message>, s: State, rest: seq<Call>, results: seq<Content>) {
    Live(s) && Pending(s.log) == rest && Results(s.log) == results && Told(task, s.log) == s.messages
  }

  lemma PollAgrees(w: World, task: seq<Message>, spent: (nat, nat), s: State)
    requires Agrees(w, task, spent, s) && Live(s) && (Pending(s.log) != [] || Requests(s.log) < MAX_ROUNDS)
    ensures var p := Polled(w, s);
            && Last(p.log) == Poll(w.stop(s.polls))
            && Agrees(w, task, spent, p) && Pending(p.log) == Pending(s.log) && Results(p.log) == Results(s.log)
            && Told(task, p.log) == Told(task, s.log) && Requests(p.log) == Requests(s.log)
            && (!w.stop(s.polls) ==> Cleared(p.log))
  {
    Ends(s.log, Poll(w.stop(s.polls)));
    GoodGrows(w, task, s.log, Poll(w.stop(s.polls)));
  }

  lemma CallAgrees(w: World, task: seq<Message>, spent: (nat, nat), s: State, call: Call)
    requires Agrees(w, task, spent, s) && Cleared(s.log)
    requires Pending(s.log) != [] && call == Pending(s.log)[0]
    ensures var r := CallRun(w, call, s);
            && Sound(w, task, spent, r) && Last(r.log) == Ran(call, w.tool(s.made))
            && Polls(r.log) == s.polls && Runs(r.log) == s.made + 1 && FailedRun(r.log) == s.failures
            && Pending(r.log) == Pending(s.log)[1..] && Results(r.log) == Results(s.log) + [ResultOf(call, w.tool(s.made))]
            && Told(task, r.log) == Told(task, s.log) && Requests(r.log) == Requests(s.log)
  {
    var a := Ran(call, w.tool(s.made));
    Ends(s.log, a);
    GoodGrows(w, task, s.log, a);
  }

  lemma ShownAgrees(w: World, task: seq<Message>, spent: (nat, nat), s: State)
    requires Sound(w, task, spent, s) && s.log != [] && Last(s.log).Ran? && Last(s.log).outcome == w.tool(s.made)
    requires Polls(s.log) == s.polls && Runs(s.log) == s.made + 1 && FailedRun(s.log) == s.failures
    requires w.heard(s.made).None?
    ensures var t := CallShown(w, s);
            && Agrees(w, task, spent, t) && Pending(t.log) == Pending(s.log) && Results(t.log) == Results(s.log)
            && Told(task, t.log) == Told(task, s.log) && Requests(t.log) == Requests(s.log)
            && Last(t.log).Shown? && Last(t.log).denial == w.watch(s.made) && (w.watch(s.made).None? ==> Live(t))
  {
    var o := w.tool(s.made);
    var failures := if o.success then 0 else s.failures + 1;
    var a := Shown(s.made + 1, o.success, failures, w.watch(s.made));
    Ends(s.log, a);
    GoodGrows(w, task, s.log, a);
  }

  /** The log of `t` goes on from that of `s` with no new request. */
  predicate Further(s: State, t: State) {
    t.log != [] && !Last(t.log).Request? && Requests(t.log) == Requests(s.log)
  }

  /** One call: check, run, show. */
  lemma CallStep(w: World, task: seq<Message>, spent: (nat, nat),
                 s: State, rest: seq<Call>, results: seq<Content>)
    requires Agrees(w, task, spent, s) && Among(task, s, rest, results) && rest != []
    ensures var p := Polled(w, s);
            && Sound(w, task, spent, p) && Further(s, p)
            && (w.stop(s.polls) ==> EndsFor(w, task, p.log, Err(CANCELLED)))
            && (!w.stop(s.polls) ==>
                  var r := CallRun(w, rest[0], p);
                  && Sound(w, task, spent, r) && Further(s, r)
                  && (w.heard(s.made).Some? ==> EndsFor(w, task, r.log, Err(w.heard(s.made).value)))
                  && (w.heard(s.made).None? ==>
                        var t := CallShown(w, r);
                        && Agrees(w, task, spent, t) && Further(s, t)
                        && (w.watch(s.made).Some? ==> EndsFor(w, task, t.log, Err(DENIED + w.watch(s.made).value)))
                        && (w.watch(s.made).None? ==>
                              Among(task, t, rest[1..], results + [ResultOf(rest[0], w.tool(s.made))]))))
  {
    PollAgrees(w, task, spent, s);
    var p := Polled(w, s);
    if !w.stop(s.polls) {
      CallAgrees(w, task, spent, p, rest[0]);
      if w.heard(s.made).None? {
        ShownAgrees(w, task, spent, CallRun(w, rest[0], p));
      }
    }
  }

  /** The calls of a reply, from the `i`th on. */
  lemma {:induction false} CallsAgree(w: World, task: seq<Message>, spent: (nat, nat),
                                      calls: seq<Call>, i: nat, results: seq<Content>, s: State)
    requires i <= |calls| && Agrees(w, task, spent, s) && Among(task, s, calls[i..], results)
    ensures var (t, r) := RunCalls(w, calls, i, results, s);
            && Sound(w, task, spent, t) && Requests(t.log) == Requests(s.log)
            && (i < |calls| ==> Further(s, t))
            && (r.Err? ==> EndsFor(w, task, t.log, Err(r.error)))
            && (r.Ok? ==> Agrees(w, task, spent, t) && Among(task, t, [], r.value) && t.messages == s.messages)
            && (r.Ok? ==> |r.value| == |results| + |calls| - i)
    decreases |calls| - i
  {
    if i < |calls| {
      var rest := calls[i..];
      CallStep(w, task, spent, s, rest, results);
      assert rest[1..] == calls[i + 1..];
      if !w.stop(s.polls) && w.heard(s.made).None? && w.watch(s.made).None? {
        var t := CallShown(w, CallRun(w, calls[i], Polled(w, s)));
        CallsAgree(w, task, spent, calls, i + 1, results + [ResultOf(calls[i], w.tool(s.made))], t);
      }
    }
  }

  /** The state between two rounds. */
  predicate Between(w: World, task: seq<Message>, spent: (nat, nat), round: nat, s: State) {
    && Agrees(w, task, spent, s) && Live(s)
    && Pending(s.log) == [] && Talk(task, s.log) == s.messages && Requests(s.log) == round
  }

  /** A round with its conversation prepared and its key in order. */
  predicate ToSend(w: World, task: seq<Message>, spent: (nat, nat), round: nat, s: State) {
    && Agrees(w, task, spent, s) && Cleared(s.log) && round < MAX_ROUNDS
    && Pending(s.log) == [] && Requests(s.log) == round
    && s.messages == Prepared(w, task, s.log) && MaySend(w, Key(w, round), s.messages)
  }

  lemma SentAgrees(w: World, task: seq<Message>, spent: (nat, nat), round: nat, s: State)
    requires ToSend(w, task, spent, round, s)
    ensures var r := Sent(w, round, s);
            && Good(w, task, r.log) && Last(r.log) == Request(Key(w, round), s.messages, w.reply(round))
            && Polls(r.log) == s.polls && Runs(r.log) == s.made && FailedRun(r.log) == s.failures
            && Requests(r.log) == round + 1
            && Pending(r.log) == Wanted(w.reply(round)) && Results(r.log) == []
  {
    var a := Request(Key(w, round), s.messages, w.reply(round));
    Ends(s.log, a);
    GoodGrows(w, task, s.log, a);
  }

  lemma SpentUnfolds(log: seq<Act>, before: seq<Act>, reported: (nat, nat))
    requires log != [] && Earlier(log) == before && Reported(Last(log)) == reported
    ensures Spent(log) == (Spent(before).0 + reported.0, Spent(before).1 + reported.1)
  {
  }

  lemma SpentStep(log: seq<Act>, a: Act)
    ensures Spent(log + [a]) == (Spent(log).0 + Reported(a).0, Spent(log).1 + Reported(a).1)
  {
    Ends(log, a);
    SpentUnfolds(log + [a], log, Reported(a));
  }

  /** The tokens after a stream: those before its request and all that it reported. */
  lemma SentSpends(w: World, task: seq<Message>, spent: (nat, nat), round: nat, s: State)
    requires Sound(w, task, spent, s) && w.reply(round).Streamed?
    ensures var r := Sent(w, round, s);
            var c := Counted(r, Read(w.reply(round).items));
            c.input == Clamp(spent.0 + Spent(r.log).0) && c.output == Clamp(spent.1 + Spent(r.log).1)
  {
    var items := w.reply(round).items;
    SpentStep(s.log, Request(Key(w, round), s.messages, Streamed(items)));
    ClampAdds(spent.0, Spent(s.log).0, InputOf(Read(items)));
    ClampAdds(spent.1, Spent(s.log).1, OutputOf(Read(items)));
  }

  /** The state once a stream is read, whatever it said. */
  lemma ReadAgrees(w: World, task: seq<Message>, spent: (nat, nat), round: nat, s: State)
    requires ToSend(w, task, spent, round, s) && w.reply(round).Streamed?
    ensures var events := Read(w.reply(round).items);
            var c := Counted(Sent(w, round, s), events);
            && Agrees(w, task, spent, c) && Requests(c.log) == round + 1 && Results(c.log) == []
            && c.messages == s.messages
            && Last(c.log) == Request(Key(w, round), s.messages, w.reply(round))
            && Pending(c.log) == Wanted(w.reply(round))
  {
    SentAgrees(w, task, spent, round, s);
    SentSpends(w, task, spent, round, s);
  }

  /** A reply without calls, or broken off, ends the turn. */
  lemma LastReplyAgrees(w: World, task: seq<Message>, spent: (nat, nat), round: nat, s: State)
    requires ToSend(w, task, spent, round, s) && w.reply(round).Streamed? && Wanted(w.reply(round)) == []
    ensures var (t, end) := AfterReply(w, w.reply(round).items, Sent(w, round, s));
            Sound(w, task, spent, t) && end.Some? && EndsFor(w, task, t.log, end.value)
  {
    ReadAgrees(w, task, spent, round, s);
  }

  /** A reply with calls goes on to run them. */
  lemma CallingReplyAgrees(w: World, task: seq<Message>, spent: (nat, nat), round: nat, s: State)
    requires ToSend(w, task, spent, round, s) && w.reply(round).Streamed? && Wanted(w.reply(round)) != []
    ensures var (t, end) := AfterReply(w, w.reply(round).items, Sent(w, round, s));
            && Sound(w, task, spent, t)
            && (end.None? ==> Between(w, task, spent, round + 1, t))
            && (end.Some? ==> EndsFor(w, task, t.log, end.value))
  {
    ReadAgrees(w, task, spent, round, s);
    var events := Read(w.reply(round).items);
    var c := Counted(Sent(w, round, s), events);
    var d := c.(messages := c.messages + [Spoken(events)]);
    var calls := Asked(events);
    assert calls[0..] == calls;
    assert Among(task, d, calls[0..], []);
    CallsAgree(w, task, spent, calls, 0, [], d);
    var (t, r) := RunCalls(w, calls, 0, [], d);
    if r.Err? {
      assert AfterReply(w, w.reply(round).items, Sent(w, round, s)) == (t, Some(Err(r.error)));
    } else {
      assert AfterReply(w, w.reply(round).items, Sent(w, round, s)) ==
             (t.(messages := t.messages + [Message(User, r.value)]), None);
    }
  }

  lemma ReplyAgrees(w: World, task: seq<Message>, spent: (nat, nat), round: nat, s: State)
    requires ToSend(w, task, spent, round, s) && w.reply(round).Streamed?
    ensures var (t, end) := AfterReply(w, w.reply(round).items, Sent(w, round, s));
            && Sound(w, task, spent, t)
            && (end.None? ==> Between(w, task, spent, round + 1, t))
            && (end.Some? ==> EndsFor(w, task, t.log, end.value))
  {
    if Wanted(w.reply(round)) == [] {
      LastReplyAgrees(w, task, spent, round, s);
    } else {
      CallingReplyAgrees(w, task, spent, round, s);
    }
  }

  lemma RefusedAgrees(w: World, task: seq<Message>, spent: (nat, nat), round: nat, s: State)
    requires ToSend(w, task, spent, round, s)
    requires w.reply(round).Refused?
    ensures var r := Sent(w, round, s); Sound(w, task, spent, r) && EndsFor(w, task, r.log, Err(w.reply(round).error))
  {
    SentAgrees(w, task, spent, round, s);
    Ends(s.log, Request(Key(w, round), s.messages, w.reply(round)));
  }

  /** A round that goes as far as its request. */
  lemma RequestAgrees(w: World, task: seq<Message>, spent: (nat, nat), round: nat, s: State)
    requires ToSend(w, task, spent, round, s)
    ensures match w.reply(round)
            case Refused(error) =>
              (var r := Sent(w, round, s); Sound(w, task, spent, r) && EndsFor(w, task, r.log, Err(error)))
            case Streamed(items) =>
              var (t, end) := AfterReply(w, items, Sent(w, round, s));
              && Sound(w, task, spent, t)
              && (end.None? ==> Between(w, task, spent, round + 1, t))
              && (end.Some? ==> EndsFor(w, task, t.log, end.value))
  {
    if w.reply(round).Refused? {
      RefusedAgrees(w, task, spent, round, s);
    } else {
      ReplyAgrees(w, task, spent, round, s);
    }
  }

  lemma RoundAgrees(w: World, task: seq<Message>, spent: (nat, nat), round: nat, s: State)
    requires Between(w, task, spent, round, s) && round < MAX_ROUNDS
    ensures var (t, end) := RunRound(w, round, s);
            && Sound(w, task, spent, t)
            && (end.None? ==> Between(w, task, spent, round + 1, t))
            && (end.Some? ==> EndsFor(w, task, t.log, end.value))
  {
    PollAgrees(w, task, spent, s);
    var p := Polled(w, s);
    if !w.stop(s.polls) {
      var q := p.(messages := Fit(w.fitter, Steered(s.messages, w.steer(round))));
      assert q.messages == Prepared(w, task, q.log);
      if MaySend(w, Key(w, round), q.messages) {
        RequestAgrees(w, task, spent, round, q);
      }
    }
  }

  lemma {:induction false} RoundsAgree(w: World, task: seq<Message>, spent: (nat, nat), round: nat, s: State)
    requires round <= MAX_ROUNDS && Between(w, task, spent, round, s)
    ensures var (t, r) := RunRounds(w, round, s); Sound(w, task, spent, t) && EndsFor(w, task, t.log, r)
    decreases MAX_ROUNDS - round
  {
    if round < MAX_ROUNDS {
      RoundAgrees(w, task, spent, round, s);
      var (t, end) := RunRound(w, round, s);
      if end.None? {
        RoundsAgree(w, task, spent, round + 1, t);
      }
    }
  }

  // -- Every turn -----------------------------------------------------------------------

  lemma BeginsBetween(w: World, task: seq<Message>, spent: (nat, nat))
    requires spent.0 <= U64_MAX && spent.1 <= U64_MAX
    ensures Between(w, task, spent, 0, Begin(task, spent))
  {
    assert task + [] == task;
  }

  /**
   Every turn leaves a good log, whatever it is answered, and ends for one of the reasons
   `EndsFor` lists, with what that reason gives: an answer exactly when its last request's
   stream came to its end without a call, with the text of that stream. The tokens it
   reports are those it began with and everything its streams reported, saturated once.
   */
  lemma TurnIsGood(w: World, task: seq<Message>, spent: (nat, nat))
    requires spent.0 <= U64_MAX && spent.1 <= U64_MAX
    ensures var (t, r) := RunRounds(w, 0, Begin(task, spent)); Sound(w, task, spent, t) && EndsFor(w, task, t.log, r)
    ensures var t := RunRounds(w, 0, Begin(task, spent)).0;
            var input, output := spent.0 + Spent(t.log).0, spent.1 + Spent(t.log).1;
            && t.input == (if input <= 0xFFFF_FFFF_FFFF_FFFF then input else 0xFFFF_FFFF_FFFF_FFFF)
            && t.output == (if output <= 0xFFFF_FFFF_FFFF_FFFF then output else 0xFFFF_FFFF_FFFF_FFFF)
  {
    BeginsBetween(w, task, spent);
    RoundsAgree(w, task, spent, 0, Begin(task, spent));
  }

  /** At most one act may follow a log, so a turn's log is determined by what it is answered. */
  lemma AllowedIsForced(w: World, task: seq<Message>, log: seq<Act>, a: Act, b: Act)
    requires Allowed(w, task, log, a) && Allowed(w, task, log, b)
    ensures a == b
  {
  }

  /** And where a turn ends nothing may follow: it does not stop short. */
  lemma EndIsFinal(w: World, task: seq<Message>, log: seq<Act>, end: Result<string, string>, a: Act)
    requires EndsFor(w, task, log, end)
    ensures !Allowed(w, task, log, a)
  {
  }

  /** The only good log that ends so is the turn's own. */
  lemma {:induction false} LogIsForced(w: World, task: seq<Message>, log: seq<Act>, other: seq<Act>,
                                       end: Result<string, string>)
    requires Good(w, task, log) && EndsFor(w, task, log, end) && Good(w, task, other)
    ensures |other| <= |log| && other == log[..|other|]
    decreases |other|
  {
    if other == [] {
    } else {
      var before, n := Earlier(other), |other| - 1;
      LogIsForced(w, task, log, before, end);
      if n == |log| {
        assert log[..n] == log;
        EndIsFinal(w, task, log, end, Last(other));
      } else {
        ActsAreAllowed(w, task, log, n);
        AllowedIsForced(w, task, before, log[n], Last(other));
        OneFurther(log, other, n);
      }
    }
  }

  lemma OneFurther(log: seq<Act>, other: seq<Act>, n: nat)
    requires |other| == n + 1 <= |log| && other[..n] == log[..n] && other[n] == log[n]
    ensures other == log[..n + 1]
  {
    assert forall i :: 0 <= i < n ==> other[i] == other[..n][i] == log[..n][i] == log[i];
  }

  // -- What good logs have in common ------------------------------------------------------

  /** Every act of a good log was allowed where it stands. */
  lemma {:induction false} ActsAreAllowed(w: World, task: seq<Message>, log: seq<Act>, k: nat)
    requires Good(w, task, log) && k < |log|
    ensures Good(w, task, log[..k]) && Allowed(w, task, log[..k], log[k])
  {
    if k < |log| - 1 {
      ActsAreAllowed(w, task, Earlier(log), k);
      assert Earlier(log)[..k] == log[..k];
    }
  }

  /**
   A seen cancellation, a denial, and a reply that asks for nothing or breaks off are
   final; every tool and every request comes right after a check that let it pass; and a
   call is shown to the supervisor before anything else, or ends the turn.
   */
  lemma {:induction false} StopsAreFinal(w: World, task: seq<Message>, log: seq<Act>, k: nat)
    requires Good(w, task, log) && k < |log|
    ensures k < |log| - 1 ==> !Halts(log[k])
    ensures log[k].Ran? || log[k].Request? ==> k > 0 && log[k - 1] == Poll(false)
    ensures k < |log| - 1 && log[k].Ran? ==> log[k + 1].Shown? && w.heard(Runs(log[..k])).None?
  {
    ActsAreAllowed(w, task, log, k);
    if k < |log| - 1 {
      ActsAreAllowed(w, task, log, k + 1);
      assert Last(log[..k + 1]) == log[k] && Earlier(log[..k + 1]) == log[..k];
    }
  }

  lemma {:induction false} RequestsGrow(log: seq<Act>, i: nat, j: nat)
    requires i < j <= |log| && log[i].Request?
    ensures Requests(log[..i]) < Requests(log[..j])
    decreases j
  {
    assert Earlier(log[..j]) == log[..j - 1];
    if i < j - 1 {
      RequestsGrow(log, i, j - 1);
    }
  }

  lemma {:induction false} AtMostEight(w: World, task: seq<Message>, log: seq<Act>)
    requires Good(w, task, log)
    ensures Requests(log) <= 8
  {
    if log == [] {
    } else {
      AtMostEight(w, task, Earlier(log));
    }
  }

  lemma KeysDiffer(w: World, m: nat, n: nat)
    requires m != n
    ensures Key(w, m) != Key(w, n)
  {
    Strings.DecParses(m);
    Strings.DecParses(n);
    var head := w.base + "-";
    assert Key(w, m)[|head|..] == Strings.Dec(m);
    assert Key(w, n)[|head|..] == Strings.Dec(n);
  }

  /** At most eight requests, no two under the same idempotency key. */
  lemma RequestsAreApart(w: World, task: seq<Message>, log: seq<Act>)
    requires Good(w, task, log)
    ensures Requests(log) <= 8
    ensures forall i, j :: 0 <= i < j < |log| && log[i].Request? && log[j].Request? ==> log[i].key != log[j].key
  {
    AtMostEight(w, task, log);
    forall i, j | 0 <= i < j < |log| && log[i].Request? && log[j].Request?
      ensures log[i].key != log[j].key
    {
      ActsAreAllowed(w, task, log, i);
      ActsAreAllowed(w, task, log, j);
      RequestsGrow(log, i, j);
      KeysDiffer(w, Requests(log[..i]), Requests(log[..j]));
    }
  }

  // -- Calls and results -------------------------------------------------------------------

  /** The calls run since the last reply. */
  function RanCalls(log: seq<Act>): seq<Call> {
    if log == [] then []
    else match Last(log)
      case Request(_, _, _) => []
      case Ran(call, _) => RanCalls(Earlier(log)) + [call]
      case _ => RanCalls(Earlier(log))
  }

  function LastWanted(log: seq<Act>): seq<Call> {
    if log == [] then []
    else if Last(log).Request? then Wanted(Last(log).reply)
    else LastWanted(Earlier(log))
  }

  /**
   The calls of a reply are run once each and in order, and all of them before the next
   request.
   */
  lemma {:induction false} CallsRunOnceInOrder(w: World, task: seq<Message>, log: seq<Act>)
    requires Good(w, task, log)
    ensures RanCalls(log) + Pending(log) == LastWanted(log)
    ensures log != [] && Last(log).Request? ==> RanCalls(Earlier(log)) == LastWanted(Earlier(log))
  {
    if log == [] {
    } else {
      CallsRunOnceInOrder(w, task, Earlier(log));
    }
  }

  /** The outcomes of the calls run since the last reply. */
  function Outcomes(log: seq<Act>): seq<Outcome> {
    if log == [] then []
    else match Last(log)
      case Request(_, _, _) => []
      case Ran(_, outcome) => Outcomes(Earlier(log)) + [outcome]
      case _ => Outcomes(Earlier(log))
  }

  /**
   What the model is told: one result for each call run since its last words, in order,
   under that call's id, with what the tool put out and a failure marked as one; together
   they are the user message that ends the conversation.
   */
  lemma {:induction false} ResultsAreOutcomes(task: seq<Message>, log: seq<Act>)
    ensures var results, calls, outcomes := Results(log), RanCalls(log), Outcomes(log);
            && |results| == |calls| == |outcomes|
            && (forall j :: 0 <= j < |results| ==>
                  && results[j].ToolResult? && results[j].id == calls[j].id
                  && results[j].content == outcomes[j].output
                  && (results[j].isError <==> !outcomes[j].success))
            && (|results| > 0 ==> Talk(task, log) == Told(task, log) + [Message(User, results)])
            && (|results| == 0 ==> Talk(task, log) == Told(task, log))
  {
    if log == [] {
    } else {
      ResultsAreOutcomes(task, Earlier(log));
    }
  }

  lemma {:induction false} CallContentsAre(calls: seq<Call>)
    ensures |CallContents(calls)| == |calls|
    ensures forall j :: 0 <= j < |calls| ==>
              && CallContents(calls)[j].ToolCall? && CallContents(calls)[j].id == calls[j].id
              && CallContents(calls)[j].name == calls[j].name && CallContents(calls)[j].arguments == calls[j].arguments
  {
    if calls == [] {
    } else {
      CallContentsAre(calls[1..]);
    }
  }

  lemma CallsFollow(head: seq<Content>, calls: seq<Call>)
    ensures var content := head + CallContents(calls);
            && |content| == |head| + |calls| && content[..|head|] == head
            && forall j :: 0 <= j < |calls| ==>
                 content[|head| + j] == ToolCall(calls[j].id, calls[j].name, calls[j].arguments)
  {
    CallContentsAre(calls);
  }

  /** The model's message: its words, unless they are blank, and then its calls as it made them. */
  lemma SpokenIs(events: seq<Event>)
    ensures var m, calls := Spoken(events), Asked(events);
            var n := if Strings.Trim(Said(events)) == "" then 0 else 1;
            && m.role == Assistant && |m.content| == n + |calls|
            && (n == 1 ==> m.content[0] == TextContent(Said(events)))
            && forall j :: 0 <= j < |calls| ==>
                 m.content[n + j] == ToolCall(calls[j].id, calls[j].name, calls[j].arguments)
  {
    var head := if Blank(Said(events)) then [] else [TextContent(Said(events))];
    CallsFollow(head, Asked(events));
    assert head != [] ==> head == Spoken(events).content[..1];
  }

  lemma {:induction false} SaidJoins(a: seq<Event>, b: seq<Event>)
    ensures Said(a + b) == Said(a) + Said(b)
    decreases |b|
  {
    if b == [] {
      assert a + b == a;
    } else {
      var rest, last := b[..|b| - 1], b[|b| - 1];
      SaidJoins(a, rest);
      assert (a + b)[..|a + b| - 1] == a + rest;
      Associate(Said(a), Said(rest), if last.TextDelta? then last.text else "");
    }
  }

  lemma {:induction false} AskedJoins(a: seq<Event>, b: seq<Event>)
    ensures Asked(a + b) == Asked(a) + Asked(b)
    decreases |b|
  {
    if b == [] {
      assert a + b == a;
    } else {
      var rest, last := b[..|b| - 1], b[|b| - 1];
      AskedJoins(a, rest);
      assert (a + b)[..|a + b| - 1] == a + rest;
      Associate(Asked(a), Asked(rest), if last.ToolCallCompleted? then [last.call] else []);
    }
  }

  lemma {:induction false} InputJoins(a: seq<Event>, b: seq<Event>)
    ensures InputOf(a + b) == InputOf(a) + InputOf(b)
    decreases |b|
  {
    if b == [] {
      assert a + b == a;
    } else {
      InputJoins(a, b[..|b| - 1]);
      assert (a + b)[..|a + b| - 1] == a + b[..|b| - 1];
    }
  }

  lemma {:induction false} OutputJoins(a: seq<Event>, b: seq<Event>)
    ensures OutputOf(a + b) == OutputOf(a) + OutputOf(b)
    decreases |b|
  {
    if b == [] {
      assert a + b == a;
    } else {
      OutputJoins(a, b[..|b| - 1]);
      assert (a + b)[..|a + b| - 1] == a + b[..|b| - 1];
    }
  }

  /** What is read of two streamed parts is what is read of each, one after the other. */
  lemma StreamsJoin(a: seq<Event>, b: seq<Event>)
    ensures Said(a + b) == Said(a) + Said(b)
    ensures Asked(a + b) == Asked(a) + Asked(b)
    ensures InputOf(a + b) == InputOf(a) + InputOf(b) && OutputOf(a + b) == OutputOf(a) + OutputOf(b)
  {
    SaidJoins(a, b);
    AskedJoins(a, b);
    InputJoins(a, b);
    OutputJoins(a, b);
  }

  /** And of a single event: its text, its call or its two counts. */
  lemma StreamOfOne(text: string, call: Call, input: nat, output: nat)
    ensures Said([TextDelta(text)]) == text && Said([ToolCallCompleted(call)]) == Said([Usage(input, output)]) == ""
    ensures Asked([ToolCallCompleted(call)]) == [call] && Asked([TextDelta(text)]) == Asked([Usage(input, output)]) == []
    ensures InputOf([Usage(input, output)]) == input && OutputOf([Usage(input, output)]) == output
    ensures InputOf([TextDelta(text)]) == OutputOf([TextDelta(text)]) == 0
    ensures InputOf([ToolCallCompleted(call)]) == OutputOf([ToolCallCompleted(call)]) == 0
    ensures Said([Other]) == "" && Asked([Other]) == [] && InputOf([Other]) == OutputOf([Other]) == 0
  {
    assert [TextDelta(text)][..0] == [] && [ToolCallCompleted(call)][..0] == [];
    assert [Usage(input, output)][..0] == [] && [Other][..0] == [];
  }

  /** Steering adds each of the parent's messages at the end, in order, and changes nothing else. */
  lemma {:induction false} SteeredIs(ms: seq<Message>, instructions: seq<string>)
    ensures var out := Steered(ms, instructions);
            && |out| == |ms| + |instructions| && out[..|ms|] == ms
            && forall j :: 0 <= j < |instructions| ==> out[|ms| + j] == Message(User, [TextContent(instructions[j])])
    decreases |instructions|
  {
    if instructions == [] {
    } else {
      var more := ms + [Message(User, [TextContent(instructions[0])])];
      SteeredIs(more, instructions[1..]);
      var out := Steered(ms, instructions);
      assert out[..|ms|] == out[..|more|][..|ms|];
      assert out[|ms|] == out[..|more|][|ms|];
    }
  }

  /** What the supervisor is shown counts the calls, and the failures since the last that worked. */
  lemma ShownCountsCalls(w: World, task: seq<Message>, log: seq<Act>, k: nat)
    requires Good(w, task, log) && k < |log| && log[k].Shown?
    ensures k > 0 && log[k - 1].Ran? && log[k].success == log[k - 1].outcome.success
    ensures log[k].sequence == Runs(log[..k]) > 0
    ensures log[k].failures == FailedRun(log[..k + 1]) && (log[k].failures > 0 <==> !log[k].success)
  {
    ActsAreAllowed(w, task, log, k);
    assert Last(log[..k]) == log[k - 1];
    assert Earlier(log[..k + 1]) == log[..k];
  }

  function Ids(calls: seq<Call>): seq<string> {
    if calls == [] then [] else [calls[0].id] + Ids(calls[1..])
  }

  lemma {:induction false} CallContentsIds(calls: seq<Call>)
    ensures CallIds(CallContents(calls)) == Ids(calls) && ResultIds(CallContents(calls)) == []
  {
    if calls == [] {
    } else {
      CallContentsIds(calls[1..]);
      assert CallContents(calls)[1..] == CallContents(calls[1..]);
    }
  }

  /** The model's message calls what the stream asked for. */
  lemma SpokenCalls(events: seq<Event>)
    ensures Spoken(events).role.Assistant? && ResultIds(Spoken(events).content) == []
    ensures CallIds(Spoken(events).content) == Ids(Asked(events))
  {
    CallContentsIds(Asked(events));
    var words := if Blank(Said(events)) then [] else [TextContent(Said(events))];
    assert words != [] ==> words[1..] == [];
    IdsJoin(words, CallContents(Asked(events)));
  }

  lemma {:induction false} SteeredStaysPaired(ms: seq<Message>, instructions: seq<string>)
    requires Paired(ms)
    ensures Paired(Steered(ms, instructions)) && Steered(ms, instructions)[0] == ms[0]
    decreases |instructions|
  {
    if instructions == [] {
    } else {
      var m := Message(User, [TextContent(instructions[0])]);
      assert m.content[1..] == [];
      PairedGrows(ms, [], m);
      SteeredStaysPaired(ms + [m], instructions[1..]);
    }
  }

  /** At every point of a turn: the calls of the model's last words are its results and what is pending. */
  predicate Balanced(task: seq<Message>, log: seq<Act>)
    requires task != []
  {
    && PairedBut(Told(task, log), ResultIds(Results(log)) + Ids(Pending(log)))
    && Told(task, log)[0] == task[0]
    && CallIds(Results(log)) == []
    && (Results(log) != [] ==> ResultIds(Results(log)) != [])
  }

  lemma TalkIsPaired(task: seq<Message>, log: seq<Act>)
    requires task != [] && Balanced(task, log) && Pending(log) == []
    ensures Paired(Talk(task, log)) && Talk(task, log)[0] == task[0]
  {
    if Results(log) == [] {
      assert Talk(task, log) == Told(task, log);
    } else {
      assert ResultIds(Results(log)) + [] == ResultIds(Results(log));
      PairedGrows(Told(task, log), ResultIds(Results(log)), Message(User, Results(log)));
    }
  }

  lemma RequestIsPaired(w: World, task: seq<Message>, log: seq<Act>, a: Act)
    requires Paired(task) && Balanced(task, log) && Allowed(w, task, log, a) && a.Request?
    ensures Paired(a.messages) && a.messages[0] == task[0]
  {
    TalkIsPaired(task, log);
    var instructions := w.steer(Requests(log));
    SteeredStaysPaired(Talk(task, log), instructions);
    FitKeepsPairs(w.fitter, Steered(Talk(task, log), instructions));
  }

  lemma RequestBalances(task: seq<Message>, log: seq<Act>)
    requires task != [] && log != [] && Last(log).Request?
    requires Paired(Last(log).messages) && Last(log).messages[0] == task[0]
    ensures Balanced(task, log)
  {
    var ms, reply := Last(log).messages, Last(log).reply;
    if Wanted(reply) != [] {
      SpokenCalls(Read(reply.items));
      PairedGrows(ms, [], Spoken(Read(reply.items)));
    }
  }

  lemma RanMovesAnId(log: seq<Act>)
    requires log != [] && Last(log).Ran?
    requires Pending(Earlier(log)) != [] && Last(log).call == Pending(Earlier(log))[0]
    ensures ResultIds(Results(log)) == ResultIds(Results(Earlier(log))) + [Last(log).call.id]
    ensures CallIds(Results(log)) == CallIds(Results(Earlier(log)))
    ensures Ids(Pending(Earlier(log))) == [Last(log).call.id] + Ids(Pending(log))
  {
    var result := [ResultOf(Last(log).call, Last(log).outcome)];
    assert result[1..] == [];
    IdsJoin(Results(Earlier(log)), result);
  }

  lemma Regroup(done: seq<string>, id: seq<string>, rest: seq<string>)
    ensures (done + id) + rest == done + (id + rest)
  {
  }

  lemma RanKeepsTold(task: seq<Message>, log: seq<Act>)
    requires log != [] && Last(log).Ran?
    ensures Told(task, log) == Told(task, Earlier(log))
  {
  }

  lemma RanBalances(task: seq<Message>, log: seq<Act>)
    requires task != [] && log != [] && Last(log).Ran? && Balanced(task, Earlier(log))
    requires Pending(Earlier(log)) != [] && Last(log).call == Pending(Earlier(log))[0]
    ensures Balanced(task, log)
  {
    RanMovesAnId(log);
    RanKeepsTold(task, log);
    Regroup(ResultIds(Results(Earlier(log))), [Last(log).call.id], Ids(Pending(log)));
  }

  lemma {:induction false} LogsBalance(w: World, task: seq<Message>, log: seq<Act>)
    requires Paired(task) && Good(w, task, log)
    ensures Balanced(task, log)
  {
    if log == [] {
    } else {
      LogsBalance(w, task, Earlier(log));
      if Last(log).Request? {
        RequestIsPaired(w, task, Earlier(log), Last(log));
        RequestBalances(task, log);
      } else if Last(log).Ran? {
        RanBalances(task, log);
      }
    }
  }

  /**
   Every request of a turn begun on a paired conversation is one a provider accepts: each
   call is answered by the next message, with the same ids in the same order, and the
   opening message still comes first.
   */
  lemma RequestsArePaired(w: World, task: seq<Message>, log: seq<Act>)
    requires Paired(task) && Good(w, task, log)
    ensures forall k :: 0 <= k < |log| && log[k].Request? ==>
              Paired(log[k].messages) && log[k].messages[0] == task[0]
  {
    forall k | 0 <= k < |log| && log[k].Request?
      ensures Paired(log[k].messages) && log[k].messages[0] == task[0]
    {
      ActsAreAllowed(w, task, log, k);
      LogsBalance(w, task, log[..k]);
      RequestIsPaired(w, task, log[..k], log[k]);
    }
  }
}
