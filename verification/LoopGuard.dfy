/**
 The stuck-model guard of `loop_guard.rs`. Its two counters are functions of the whole
 history of rounds, and its verdicts are stated about runs of failing rounds.
 */
module LoopGuard {
  import opened Wrappers
  import opened ConfigEdit
  import opened Dialogue

  const IDENTICAL_FAILURE_LIMIT: nat := 3
  const FAILING_ROUNDS_WARNING: nat := 3
  const FAILING_ROUNDS_LIMIT: nat := 6

  datatype Round = Round(calls: seq<Call>, results: seq<Content>)

  datatype Reason = SameCall(count: nat) | EveryCall(rounds: nat)

  datatype Verdict = Continue | Redirect(reason: Reason) | Stop(reason: Reason)

  /**
   What makes two calls the same call. The code joins the two parts with a NUL, which JSON
   text never holds, so its string tells exactly the pairs apart that this does.
   */
  datatype Fingerprint = Fingerprint(name: string, identity: Json)

  function FingerprintOf(c: Call): Fingerprint {
    Fingerprint(c.name,
      if c.name == "bash" then
        (if c.arguments.Object? && "command" in c.arguments.fields then c.arguments.fields["command"] else Null)
      else c.arguments)
  }

  predicate IsFailure(c: Content) {
    c.ToolResult? && c.isError
  }

  /** A round that asked for something and got nothing but failures. */
  predicate Fails(r: Round) {
    r.calls != [] && forall i :: 0 <= i < |r.results| ==> IsFailure(r.results[i])
  }

  // -- The history ------------------------------------------------------------

  function Last(h: seq<Round>): Round
    requires h != []
  {
    h[|h| - 1]
  }

  function Earlier(h: seq<Round>): seq<Round>
    requires h != []
  {
    h[..|h| - 1]
  }

  /** How many rounds the history ends with in which every call failed. */
  function FailingRun(h: seq<Round>): (n: nat)
    ensures n <= |h|
    ensures n > 0 <==> h != [] && Fails(Last(h))
  {
    if h == [] || !Fails(Last(h)) then 0 else FailingRun(Earlier(h)) + 1
  }

  /** How many of those, from the end, began with the same failing call. */
  function IdenticalRun(h: seq<Round>): (n: nat)
    ensures n <= FailingRun(h)
    ensures FailingRun(h) > 0 ==> n > 0
  {
    if FailingRun(h) == 0 then 0
    else if FailingRun(Earlier(h)) > 0 && FingerprintOf(Last(Earlier(h)).calls[0]) == FingerprintOf(Last(h).calls[0])
    then IdenticalRun(Earlier(h)) + 1
    else 1
  }

  /** What the guard says of a history. */
  function VerdictOf(h: seq<Round>): Verdict {
    var identical, failing := IdenticalRun(h), FailingRun(h);
    if identical >= IDENTICAL_FAILURE_LIMIT then Stop(SameCall(identical))
    else if failing >= FAILING_ROUNDS_LIMIT then Stop(EveryCall(failing))
    else if identical == IDENTICAL_FAILURE_LIMIT - 1 then Redirect(SameCall(identical))
    else if failing == FAILING_ROUNDS_WARNING then Redirect(EveryCall(failing))
    else Continue
  }

  /** What one more round makes of the runs. */
  lemma RunsStep(h: seq<Round>, r: Round)
    ensures Last(h + [r]) == r
    ensures FailingRun(h + [r]) == if Fails(r) then FailingRun(h) + 1 else 0
    ensures Fails(r) ==>
              var same := FailingRun(h) > 0 && FingerprintOf(Last(h).calls[0]) == FingerprintOf(r.calls[0]);
              IdenticalRun(h + [r]) == if same then IdenticalRun(h) + 1 else 1
  {
    assert Earlier(h + [r]) == h;
  }

  /** A round fails when it called something and every result is one marked as a failure. */
  lemma FailsIff(r: Round)
    ensures Fails(r) <==>
            r.calls != [] && forall c :: c in r.results ==> exists id, text :: c == ToolResult(id, text, true)
  {
    if Fails(r) {
      forall c | c in r.results
        ensures exists id, text :: c == ToolResult(id, text, true)
      {
        assert IsFailure(c) && c == ToolResult(c.id, c.content, true);
      }
    }
    if r.calls != [] && forall c :: c in r.results ==> exists id, text :: c == ToolResult(id, text, true) {
      forall i | 0 <= i < |r.results|
        ensures IsFailure(r.results[i])
      {
        assert r.results[i] in r.results;
      }
    }
  }

  function CommandOf(c: Call): Json {
    if c.arguments.Object? && "command" in c.arguments.fields then c.arguments.fields["command"] else Null
  }

  /**
   Two calls are the same call when they have one name and the same arguments; of two
   shell calls only the command counts, whatever their other arguments.
   */
  lemma SameCallIff(c: Call, d: Call)
    ensures FingerprintOf(c) == FingerprintOf(d) <==>
            c.name == d.name && if c.name == "bash" then CommandOf(c) == CommandOf(d) else c.arguments == d.arguments
  {
  }

  // -- The code ---------------------------------------------------------------

  class LoopGuard {
    var identical: Option<(Fingerprint, nat)>
    var failingRounds: nat
    ghost var history: seq<Round>

    /** The counters are functions of the history. */
    ghost predicate Valid()
      reads this
    {
      && failingRounds == FailingRun(history)
      && identical == if FailingRun(history) == 0 then None
                      else Some((FingerprintOf(Last(history).calls[0]), IdenticalRun(history)))
    }

    constructor ()
      ensures Valid() && history == []
    {
      identical, failingRounds, history := None, 0, [];
    }

    method Observe(calls: seq<Call>, results: seq<Content>) returns (v: Verdict)
      requires Valid()
      modifies this
      ensures Valid() && history == old(history) + [Round(calls, results)]
      ensures v == VerdictOf(history)
    {
      var round := Round(calls, results);
      history := history + [round];
      RunsStep(old(history), round);
      if calls == [] || exists i :: 0 <= i < |results| && !IsFailure(results[i]) {
        identical, failingRounds := None, 0;
        return Continue;
      }
      failingRounds := failingRounds + 1;
      var first := FingerprintOf(calls[0]);
      var count := 1;
      if identical.Some? && identical.value.0 == first {
        count := identical.value.1 + 1;
      }
      identical := Some((first, count));
      if count >= IDENTICAL_FAILURE_LIMIT {
        return Stop(SameCall(count));
      }
      if failingRounds >= FAILING_ROUNDS_LIMIT {
        return Stop(EveryCall(failingRounds));
      }
      if count == IDENTICAL_FAILURE_LIMIT - 1 {
        return Redirect(SameCall(count));
      }
      if failingRounds == FAILING_ROUNDS_WARNING {
        return Redirect(EveryCall(failingRounds));
      }
      return Continue;
    }
  }

  /** A note goes after the last result's content, and nothing else changes. */
  method AttachNote(results: array<Content>, note: string)
    modifies results
    ensures results.Length > 0 && old(results[results.Length - 1]).ToolResult? ==>
              var last := old(results[results.Length - 1]);
              results[..] == old(results[..])[results.Length - 1 := last.(content := last.content + "\n\n" + note)]
    ensures results.Length == 0 || !old(results[results.Length - 1]).ToolResult? ==> results[..] == old(results[..])
  {
    if results.Length > 0 && results[results.Length - 1].ToolResult? {
      var last := results[results.Length - 1];
      results[results.Length - 1] := last.(content := last.content + "\n\n" + note);
    }
  }

  // -- The counters are maximal runs ------------------------------------------

  /** `FailingRun` is the length of the longest run of failing rounds the history ends with. */
  lemma {:induction false} FailingRunIsMaximal(h: seq<Round>)
    ensures var n := FailingRun(h);
            && (forall i :: |h| - n <= i < |h| ==> Fails(h[i]))
            && (n < |h| ==> !Fails(h[|h| - n - 1]))
  {
    if h == [] {
    } else {
      FailingRunIsMaximal(Earlier(h));
      forall i | |h| - FailingRun(h) <= i < |h|
        ensures Fails(h[i])
      {
        if i < |h| - 1 {
          assert h[i] == Earlier(h)[i];
        }
      }
    }
  }

  /** `IdenticalRun` is the length of the longest part of that run with one first call. */
  lemma {:induction false} IdenticalRunIsMaximal(h: seq<Round>)
    requires FailingRun(h) > 0
    ensures var n := IdenticalRun(h);
            && (forall i :: |h| - n <= i < |h| ==>
                  Fails(h[i]) && FingerprintOf(h[i].calls[0]) == FingerprintOf(Last(h).calls[0]))
            && (n < FailingRun(h) ==>
                  Fails(h[|h| - n - 1]) && FingerprintOf(h[|h| - n - 1].calls[0]) != FingerprintOf(Last(h).calls[0]))
  {
    FailingRunIsMaximal(h);
    if IdenticalRun(h) > 1 {
      var g := Earlier(h);
      IdenticalRunIsMaximal(g);
      assert forall i :: 0 <= i < |g| ==> h[i] == g[i];
    }
  }

  // -- Runs --------------------------------------------------------------------

  /** The run's earlier rounds, seen as histories of their own. */
  lemma {:induction false} RunPrefix(h: seq<Round>, n: nat)
    requires n <= FailingRun(h)
    ensures FailingRun(h[..|h| - n]) == FailingRun(h) - n
    ensures n < IdenticalRun(h) ==> IdenticalRun(h[..|h| - n]) == IdenticalRun(h) - n
  {
    if n == 0 {
      assert h[..|h|] == h;
    } else {
      var before := Earlier(h);
      RunPrefix(before, n - 1);
      assert before[..|before| - (n - 1)] == h[..|h| - n];
    }
  }

  /** Any success ends the run, and nothing is said then; no failing run passes its sixth round unstopped. */
  lemma StopsBySixth(h: seq<Round>)
    ensures h != [] && !Fails(Last(h)) ==> VerdictOf(h) == Continue
    ensures FailingRun(h) >= 6 ==> VerdictOf(h).Stop?
    ensures VerdictOf(h).Stop? ==> FailingRun(h) >= 3 && Fails(Last(h))
  {
  }

  lemma RedirectsByThird(g: seq<Round>)
    requires FailingRun(g) == 3 && IdenticalRun(g) < 3
    ensures VerdictOf(g).Redirect?
  {
  }

  lemma RedirectsAtSecond(g: seq<Round>)
    requires FailingRun(g) == 2 && IdenticalRun(g) == 2
    ensures VerdictOf(g).Redirect?
  {
  }

  lemma BeforeThirdRedirects(g: seq<Round>)
    requires FailingRun(g) == 3 && IdenticalRun(g) == 3
    ensures VerdictOf(g[..|g| - 1]).Redirect?
  {
    RunPrefix(g, 1);
    RedirectsAtSecond(g[..|g| - 1]);
  }

  /** A run of three failing rounds was redirected at its third round, or else at its second. */
  lemma ThreeAreRedirected(h: seq<Round>) returns (n: nat)
    requires FailingRun(h) >= 3
    ensures n < FailingRun(h) && VerdictOf(h[..|h| - n]).Redirect?
  {
    var third := FailingRun(h) - 3;
    RunPrefix(h, third);
    var g := h[..|h| - third];
    if IdenticalRun(g) < 3 {
      RedirectsByThird(g);
      return third;
    }
    BeforeThirdRedirects(g);
    assert g[..|g| - 1] == h[..|h| - (third + 1)];
    return third + 1;
  }

  /**
   A stop is never the first word: whenever the guard stops a run, it redirected the model
   at an earlier round of that same run.
   */
  lemma StopFollowsRedirect(h: seq<Round>) returns (n: nat)
    requires VerdictOf(h).Stop?
    ensures 0 < n < FailingRun(h) && VerdictOf(h[..|h| - n]).Redirect?
  {
    n := ThreeAreRedirected(h);
    assert h[..|h|] == h;
  }

  predicate StoppedBefore(h: seq<Round>, n: nat)
    requires n <= |h|
  {
    VerdictOf(h[..|h| - n]).Stop?
  }

  /** The first stop of a run is on its third identical call or its sixth failure, whichever is first. */
  lemma FirstStopIsExact(h: seq<Round>)
    requires VerdictOf(h).Stop?
    requires forall n :: 0 < n < FailingRun(h) ==> !StoppedBefore(h, n)
    ensures VerdictOf(h) == Stop(SameCall(3)) || VerdictOf(h) == Stop(EveryCall(6))
    ensures FailingRun(h) <= 6
  {
    RunPrefix(h, 1);
    assert !StoppedBefore(h, 1);
  }
}
