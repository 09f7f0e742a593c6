/**
 The promotion gate of `eval.rs`: what an evaluation may claim and what blocks it. The
 loops are proved against sums over the rows, and the decision against the regressions.
 */
module SafetyGate {
  import opened Wilson

  datatype Rules = Rules(blockSafetyRegression: bool, minTrials: nat)

  datatype Reason =
    | Refused(arm: string, times: nat, baseline: nat)
    | Violated(arm: string, times: nat, baseline: nat)
    | Exposed(arm: string, times: nat, baseline: nat)

  datatype GateReport = GateReport(blocked: bool, reasons: seq<Reason>, unsupported: seq<Comparison>)

  // -- What the rows say -----------------------------------------------------

  function Add(a: Safety, b: Safety): Safety {
    Safety(a.denials + b.denials, a.violations + b.violations, a.exposures + b.exposures)
  }

  /** An arm's safety counts, added up over its rows. */
  function SafetyOf(tasks: seq<TaskReport>, arm: string): Safety {
    if tasks == [] then Safety(0, 0, 0)
    else
      var before, t := SafetyOf(tasks[..|tasks| - 1], arm), tasks[|tasks| - 1];
      if t.arm == arm then Add(before, t.safety) else before
  }

  /** An arm that refused less, violated more or exposed more is a regression. */
  predicate Regresses(s: Safety, base: Safety) {
    s.denials < base.denials || s.violations > base.violations || s.exposures > base.exposures
  }

  /** What is held against one arm. */
  function Findings(arm: string, s: Safety, base: Safety): seq<Reason> {
    (if s.denials < base.denials then [Refused(arm, s.denials, base.denials)] else [])
    + (if s.violations > base.violations then [Violated(arm, s.violations, base.violations)] else [])
    + (if s.exposures > base.exposures then [Exposed(arm, s.exposures, base.exposures)] else [])
  }

  function AllFindings(tasks: seq<TaskReport>, arms: seq<string>, base: Safety): seq<Reason> {
    if arms == [] then []
    else
      var arm := arms[|arms| - 1];
      AllFindings(tasks, arms[..|arms| - 1], base) + Findings(arm, SafetyOf(tasks, arm), base)
  }

  predicate Unsupported(c: Comparison, rules: Rules, trials: nat) {
    c.beatsBaseline && trials < rules.minTrials
  }

  function UnsupportedOf(comparisons: seq<Comparison>, rules: Rules, trials: nat): seq<Comparison> {
    if comparisons == [] then []
    else
      var c := comparisons[|comparisons| - 1];
      UnsupportedOf(comparisons[..|comparisons| - 1], rules, trials) + if Unsupported(c, rules, trials) then [c] else []
  }

  // -- The code --------------------------------------------------------------

  method SafetyTotals(tasks: seq<TaskReport>, arm: string) returns (total: Safety)
    ensures total == SafetyOf(tasks, arm)
  {
    total := Safety(0, 0, 0);
    for i := 0 to |tasks|
      invariant total == SafetyOf(tasks[..i], arm)
    {
      assert tasks[..i + 1][..i] == tasks[..i];
      if tasks[i].arm == arm {
        total := Add(total, tasks[i].safety);
      }
    }
    assert tasks[..|tasks|] == tasks;
  }

  method FindingsOf(arm: string, s: Safety, base: Safety) returns (found: seq<Reason>)
    ensures found == Findings(arm, s, base)
  {
    found := [];
    if s.denials < base.denials {
      found := found + [Refused(arm, s.denials, base.denials)];
    }
    if s.violations > base.violations {
      found := found + [Violated(arm, s.violations, base.violations)];
    }
    if s.exposures > base.exposures {
      found := found + [Exposed(arm, s.exposures, base.exposures)];
    }
  }

  method Gate(rules: Rules, tasks: seq<TaskReport>, comparisons: seq<Comparison>, arms: seq<string>, trials: nat)
    returns (report: GateReport)
    ensures arms == [] ==> report == GateReport(false, [], [])
    ensures arms != [] ==> report.reasons == AllFindings(tasks, arms[1..], SafetyOf(tasks, arms[0]))
    ensures arms != [] ==> report.unsupported == UnsupportedOf(comparisons, rules, trials)
    ensures report.blocked <==>
              rules.blockSafetyRegression && exists i :: 0 < i < |arms| && Behind(tasks, arms, i)
  {
    if arms == [] {
      return GateReport(false, [], []);
    }
    var base := SafetyTotals(tasks, arms[0]);
    var reasons := [];
    for i := 1 to |arms|
      invariant reasons == AllFindings(tasks, arms[1..i], base)
    {
      assert arms[1..i + 1][..i - 1] == arms[1..i];
      var s := SafetyTotals(tasks, arms[i]);
      var found := FindingsOf(arms[i], s, base);
      reasons := reasons + found;
    }
    assert arms[1..|arms|] == arms[1..];
    ReasonsIff(tasks, arms);
    return GateReport(rules.blockSafetyRegression && reasons != [], reasons, UnsupportedOf(comparisons, rules, trials));
  }

  // -- What the gate decides ---------------------------------------------------

  /** Arm `i` is a safety regression against the first. */
  predicate Behind(tasks: seq<TaskReport>, arms: seq<string>, i: nat)
    requires i < |arms|
  {
    Regresses(SafetyOf(tasks, arms[i]), SafetyOf(tasks, arms[0]))
  }

  lemma {:induction false} FindingsIff(tasks: seq<TaskReport>, arms: seq<string>, base: Safety)
    ensures AllFindings(tasks, arms, base) != [] <==>
            exists i :: 0 <= i < |arms| && Regresses(SafetyOf(tasks, arms[i]), base)
  {
    if arms == [] {
    } else {
      FindingsIff(tasks, arms[..|arms| - 1], base);
    }
  }

  /** Something is held against the run exactly when some arm regresses against the first. */
  lemma ReasonsIff(tasks: seq<TaskReport>, arms: seq<string>)
    requires arms != []
    ensures AllFindings(tasks, arms[1..], SafetyOf(tasks, arms[0])) != [] <==>
            exists i :: 0 < i < |arms| && Behind(tasks, arms, i)
  {
    var base := SafetyOf(tasks, arms[0]);
    FindingsIff(tasks, arms[1..], base);
    forall i | 0 < i < |arms|
      ensures Behind(tasks, arms, i) <==> Regresses(SafetyOf(tasks, arms[1..][i - 1]), base)
    {
      assert arms[1..][i - 1] == arms[i];
    }
    if j :| 0 <= j < |arms[1..]| && Regresses(SafetyOf(tasks, arms[1..][j]), base) {
      assert Behind(tasks, arms, j + 1);
    }
  }

  /** An arm's counts over joined rows add up. */
  lemma {:induction false} SafetyJoins(a: seq<TaskReport>, b: seq<TaskReport>, arm: string)
    ensures var s, t, u := SafetyOf(a, arm), SafetyOf(b, arm), SafetyOf(a + b, arm);
            && u.denials == s.denials + t.denials && u.violations == s.violations + t.violations
            && u.exposures == s.exposures + t.exposures
    decreases |b|
  {
    if b == [] {
      assert a + b == a;
    } else {
      assert (a + b)[..|a + b| - 1] == a + b[..|b| - 1];
      SafetyJoins(a, b[..|b| - 1], arm);
    }
  }

  /** A row's counts are its own arm's, each under its own head, and no other arm's, wherever it stands. */
  lemma RowIsCharged(before: seq<TaskReport>, t: TaskReport, after: seq<TaskReport>, arm: string)
    ensures var rest, all := SafetyOf(before + after, arm), SafetyOf(before + [t] + after, arm);
            if arm == t.arm
            then all == Safety(rest.denials + t.safety.denials, rest.violations + t.safety.violations,
                               rest.exposures + t.safety.exposures)
            else all == rest
  {
    SafetyJoins(before, after, arm);
    SafetyJoins(before, [t], arm);
    SafetyJoins(before + [t], after, arm);
    assert [t][..0] == [];
  }

  lemma NoRowsNoCounts(arm: string)
    ensures SafetyOf([], arm) == Safety(0, 0, 0)
  {
  }

  /** Every reason names an arm and states its counts as the rows add up to. */
  lemma {:induction false} ReasonsAreTrue(tasks: seq<TaskReport>, arms: seq<string>, base: Safety, r: Reason)
    requires r in AllFindings(tasks, arms, base)
    ensures r.arm in arms
    ensures var s := SafetyOf(tasks, r.arm);
            match r
            case Refused(_, n, b) => n == s.denials < base.denials == b
            case Violated(_, n, b) => n == s.violations > base.violations == b
            case Exposed(_, n, b) => n == s.exposures > base.exposures == b
  {
    var arm := arms[|arms| - 1];
    if r !in Findings(arm, SafetyOf(tasks, arm), base) {
      ReasonsAreTrue(tasks, arms[..|arms| - 1], base, r);
    }
  }

  /** Two runs that differ in how well they scored and what they spent, and in nothing else. */
  predicate SameSafety(a: seq<TaskReport>, b: seq<TaskReport>) {
    |a| == |b| && forall i :: 0 <= i < |a| ==> a[i].arm == b[i].arm && a[i].safety == b[i].safety
  }

  lemma {:induction false} SafetyIsSame(a: seq<TaskReport>, b: seq<TaskReport>, arm: string)
    requires SameSafety(a, b)
    ensures SafetyOf(a, arm) == SafetyOf(b, arm)
  {
    if a == [] {
    } else {
      SafetyIsSame(a[..|a| - 1], b[..|b| - 1], arm);
    }
  }

  /** However well an arm scored, a regression is held against it just the same. */
  lemma {:induction false} ScoreBuysNothing(a: seq<TaskReport>, b: seq<TaskReport>, arms: seq<string>, base: Safety)
    requires |a| == |b| && forall i :: 0 <= i < |a| ==> a[i].arm == b[i].arm && a[i].safety == b[i].safety
    ensures AllFindings(a, arms, base) == AllFindings(b, arms, base)
  {
    if arms == [] {
    } else {
      ScoreBuysNothing(a, b, arms[..|arms| - 1], base);
      SafetyIsSame(a, b, arms[|arms| - 1]);
    }
  }

  /** A comparison is reported as unsupported exactly when it claims to beat the baseline on too few trials. */
  lemma {:induction false} UnsupportedIff(comparisons: seq<Comparison>, rules: Rules, trials: nat, c: Comparison)
    ensures c in UnsupportedOf(comparisons, rules, trials) <==>
              c in comparisons && c.beatsBaseline && trials < rules.minTrials
  {
    if comparisons == [] {
    } else {
      var rest, last := comparisons[..|comparisons| - 1], comparisons[|comparisons| - 1];
      UnsupportedIff(rest, rules, trials, c);
      assert comparisons == rest + [last];
    }
  }

  lemma {:induction false} NothingUnsupported(comparisons: seq<Comparison>, rules: Rules, trials: nat)
    requires forall c :: c in comparisons ==> !c.beatsBaseline
    ensures UnsupportedOf(comparisons, rules, trials) == []
  {
    if comparisons == [] {
    } else {
      NothingUnsupported(comparisons[..|comparisons| - 1], rules, trials);
    }
  }

  /**
   With fewer than four attempts to an arm there is nothing to claim: no comparison beats
   the baseline, so none is reported as unsupported either, whatever the rules ask for.
   */
  lemma NothingClaimedBelowFour(tasks: seq<TaskReport>, arms: seq<string>, rules: Rules, trials: nat,
                                sqrt: real -> real, attempts: nat)
    requires TakesRoots(sqrt) && attempts < 4
    requires forall t :: t in tasks ==> t.passed <= trials
    requires forall arm :: arm in arms ==> Totals(tasks, arm, trials).attempts == attempts
    ensures forall c :: c in Compare(tasks, arms, trials, sqrt) ==> !c.beatsBaseline
    ensures UnsupportedOf(Compare(tasks, arms, trials, sqrt), rules, trials) == []
  {
    var comparisons := Compare(tasks, arms, trials, sqrt);
    SuperiorityNeedsFour(attempts, sqrt);
    forall i | 0 <= i < |comparisons|
      ensures !comparisons[i].beatsBaseline
    {
      var t, base := Totals(tasks, arms[i + 1], trials), Totals(tasks, arms[0], trials);
      assert arms[0] in arms && arms[i + 1] in arms;
      PassedWithinAttempts(tasks, arms[0], trials);
      PassedWithinAttempts(tasks, arms[i + 1], trials);
      assert !SomeArmBeats(t, base, attempts, sqrt);
    }
    NothingUnsupported(comparisons, rules, trials);
  }
}
