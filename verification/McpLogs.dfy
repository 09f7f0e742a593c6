/**
 Server log lines: the bounded queue `connector.rs` holds them in until they are shown, and
 what `mcp_log_rows` of `lib.rs` shows of them.
 */
module McpLogs {
  import Strings

  type Line = (string, string)

  const MAX_HELD_LOG_LINES: nat := 512

  // -- The queue ----------------------------------------------------------------

  function Tail<T>(s: seq<T>, n: nat): seq<T> {
    if |s| <= n then s else s[|s| - n..]
  }

  class LogQueue {
    var held: seq<Line>
    /** Every line written since the last drain. */
    ghost var written: seq<Line>

    ghost predicate Valid()
      reads this
    {
      held == Tail(written, MAX_HELD_LOG_LINES)
    }

    constructor ()
      ensures Valid() && written == []
    {
      held, written := [], [];
    }

    method Log(server: string, line: string)
      requires Valid()
      modifies this
      ensures Valid() && written == old(written) + [(server, line)]
    {
      if |held| >= MAX_HELD_LOG_LINES {
        held := held[1..];
      }
      held := held + [(server, line)];
      written := written + [(server, line)];
    }

    /** Each line is shown once. */
    method TakeLogs() returns (lines: seq<Line>)
      requires Valid()
      modifies this
      ensures Valid() && written == []
      ensures lines == Tail(old(written), 512)
    {
      lines := held;
      held, written := [], [];
    }
  }

  // -- Counting ------------------------------------------------------------------

  function Occurrences(logs: seq<Line>, server: string): nat {
    if logs == [] then 0
    else Occurrences(logs[..|logs| - 1], server) + if logs[|logs| - 1].0 == server then 1 else 0
  }

  /** The servers in the order of their first line. */
  function Servers(logs: seq<Line>): seq<string> {
    if logs == [] then []
    else
      var before, server := Servers(logs[..|logs| - 1]), logs[|logs| - 1].0;
      if server in before then before else before + [server]
  }

  /** Naive counting: a pass over all lines for each server. */
  function Counts(logs: seq<Line>): seq<(string, nat)> {
    var servers := Servers(logs);
    seq(|servers|, i requires 0 <= i < |servers| => (servers[i], Occurrences(logs, servers[i])))
  }

  function Sum(counts: seq<(string, nat)>): nat {
    if counts == [] then 0 else Sum(counts[..|counts| - 1]) + counts[|counts| - 1].1
  }

  predicate Distinct(names: seq<string>) {
    forall i, j :: 0 <= i < j < |names| ==> names[i] != names[j]
  }

  lemma {:induction false} ServersHold(logs: seq<Line>)
    ensures Distinct(Servers(logs))
    ensures forall s :: s in Servers(logs) <==> exists i :: 0 <= i < |logs| && logs[i].0 == s
    ensures forall s :: s in Servers(logs) <==> Occurrences(logs, s) > 0
  {
    if logs == [] {
    } else {
      var before := logs[..|logs| - 1];
      ServersHold(before);
      assert logs == before + [logs[|logs| - 1]];
    }
  }

  /** One server's lines take nothing from the count of another. */
  lemma {:induction false} SumAfter(counts: seq<(string, nat)>, i: nat, c: (string, nat))
    requires i < |counts|
    ensures Sum(counts[i := c]) == Sum(counts) - counts[i].1 + c.1
  {
    if i < |counts| - 1 {
      assert counts[i := c][..|counts| - 1] == counts[..|counts| - 1][i := c];
      SumAfter(counts[..|counts| - 1], i, c);
    } else {
      assert counts[i := c][..|counts| - 1] == counts[..|counts| - 1];
    }
  }

  /** How one more line changes the naive counts: exactly one entry gains one, or one is added. */
  lemma CountsStep(logs: seq<Line>, line: Line)
    ensures var before, after := Counts(logs), Counts(logs + [line]);
            if line.0 in Servers(logs)
            then exists i :: 0 <= i < |before| && before[i].0 == line.0 && after == before[i := (line.0, before[i].1 + 1)]
            else after == before + [(line.0, 1)]
  {
    var more := logs + [line];
    assert more[..|more| - 1] == logs;
    ServersHold(logs);
    if line.0 in Servers(logs) {
      var i :| 0 <= i < |Servers(logs)| && Servers(logs)[i] == line.0;
      assert Counts(more) == Counts(logs)[i := (line.0, Counts(logs)[i].1 + 1)];
    } else {
      assert Counts(more) == Counts(logs) + [(line.0, 1)];
    }
  }

  lemma CountsStepAt(logs: seq<Line>, line: Line, k: nat)
    requires k < |Counts(logs)| && Counts(logs)[k].0 == line.0
    ensures Counts(logs + [line]) == Counts(logs)[k := (line.0, Counts(logs)[k].1 + 1)]
    ensures Servers(logs + [line]) == Servers(logs)
  {
    assert (logs + [line])[..|logs|] == logs;
    assert Servers(logs)[k] == line.0;
    CountsStep(logs, line);
    ServersHold(logs);
  }

  lemma CountsStepNew(logs: seq<Line>, line: Line)
    requires line.0 !in Servers(logs)
    ensures Counts(logs + [line]) == Counts(logs) + [(line.0, 1)]
    ensures Servers(logs + [line]) == Servers(logs) + [line.0]
  {
    assert (logs + [line])[..|logs|] == logs;
    CountsStep(logs, line);
  }

  /** The counts add up to the number of lines. */
  lemma {:induction false} CountsSumToLines(logs: seq<Line>)
    ensures Sum(Counts(logs)) == |logs|
  {
    if logs == [] {
    } else {
      var before, line := logs[..|logs| - 1], logs[|logs| - 1];
      CountsSumToLines(before);
      assert logs == before + [line];
      CountsStep(before, line);
      var c := Counts(before);
      if line.0 in Servers(before) {
        var i :| 0 <= i < |c| && c[i].0 == line.0 && Counts(logs) == c[i := (line.0, c[i].1 + 1)];
        SumAfter(c, i, (line.0, c[i].1 + 1));
      } else {
        assert (c + [(line.0, 1)])[..|c|] == c;
      }
    }
  }

  /** The order is that of the first lines: what the first part logged comes first, in its order. */
  lemma {:induction false} FirstAppearanceOrder(logs: seq<Line>, more: seq<Line>)
    ensures Servers(logs) <= Servers(logs + more)
    decreases |more|
  {
    if more == [] {
      assert logs + more == logs;
    } else {
      var all := logs + more;
      assert all[..|all| - 1] == logs + more[..|more| - 1];
      FirstAppearanceOrder(logs, more[..|more| - 1]);
    }
  }

  // -- The code -------------------------------------------------------------------

  /** The counting as written: one pass, a map holding each server's slot. */
  method CountBySlots(logs: seq<Line>) returns (counts: seq<(string, nat)>)
    ensures counts == Counts(logs)
  {
    counts := [];
    var slots: map<string, nat> := map[];
    for i := 0 to |logs|
      invariant counts == Counts(logs[..i])
      invariant slots.Keys == set s | s in Servers(logs[..i])
      invariant forall s :: s in slots ==> slots[s] < |counts| && counts[slots[s]].0 == s
    {
      var server := logs[i].0;
      assert logs[..i + 1] == logs[..i] + [logs[i]];
      if server in slots {
        var index := slots[server];
        CountsStepAt(logs[..i], logs[i], index);
        counts := counts[index := (counts[index].0, counts[index].1 + 1)];
      } else {
        CountsStepNew(logs[..i], logs[i]);
        slots := slots[server := |counts|];
        counts := counts + [(server, 1)];
      }
    }
    assert logs[..|logs|] == logs;
  }

  method McpLogRows(logs: seq<Line>, level: string) returns (rows: seq<string>)
    ensures rows == Rows(logs, level)
  {
    if logs == [] || level == "hidden" {
      return [];
    }
    if level == "full" {
      rows := [];
      for i := 0 to |logs|
        invariant rows == seq(i, k requires 0 <= k < i => FullRow(logs[k]))
      {
        rows := rows + [FullRow(logs[i])];
      }
      return rows;
    }
    var counts := CountBySlots(logs);
    CountsSumToLines(logs);
    var lines := 0;
    for i := 0 to |counts|
      invariant lines == Sum(counts[..i])
    {
      assert counts[..i + 1][..i] == counts[..i];
      lines := lines + counts[i].1;
    }
    assert counts[..|counts|] == counts;
    var what := if |counts| == 1 then counts[0].0 else Strings.Dec(|counts|) + " servers";
    return [SummaryRow(what, lines)];
  }

  function FullRow(line: Line): string {
    "mcp " + line.0 + ": " + line.1
  }

  function SummaryRow(what: string, lines: nat): string {
    "mcp " + what + " \U{B7} " + Strings.Dec(lines) + " log " + (if lines == 1 then "line" else "lines")
    + " \U{B7} `ui.mcp_log = \"full\"` to read them"
  }

  /** What is shown, by naive counting. */
  function Rows(logs: seq<Line>, level: string): seq<string> {
    if logs == [] || level == "hidden" then []
    else if level == "full" then seq(|logs|, k requires 0 <= k < |logs| => FullRow(logs[k]))
    else
      var servers := Servers(logs);
      [SummaryRow(if |servers| == 1 then servers[0] else Strings.Dec(|servers|) + " servers", |logs|)]
  }

  /** How many lines a drain after `written` reports. */
  function Reported(written: seq<Line>): nat {
    Sum(Counts(Tail(written, MAX_HELD_LOG_LINES)))
  }

  /**
   The count in a summary is of the lines still held: it leaves out the ones the bound
   dropped, and is the number written exactly when none was dropped.
   */
  lemma ReportedCountsHeldOnly(written: seq<Line>)
    ensures Reported(written) == if |written| <= 512 then |written| else 512
    ensures Reported(written) == |written| <==> |written| <= 512
  {
    CountsSumToLines(Tail(written, MAX_HELD_LOG_LINES));
  }

  /**
   What each level shows: nothing; every line after its server; or one row with the server,
   or how many there are, and the number of lines.
   */
  lemma RowsSay(logs: seq<Line>, level: string)
    ensures logs == [] || level == "hidden" ==> Rows(logs, level) == []
    ensures logs != [] && level == "full" ==>
              && |Rows(logs, level)| == |logs|
              && forall k :: 0 <= k < |logs| ==> Rows(logs, level)[k] == "mcp " + logs[k].0 + ": " + logs[k].1
    ensures logs != [] && level != "hidden" && level != "full" ==>
              var what := if forall l :: l in logs ==> l.0 == logs[0].0 then logs[0].0
                          else Strings.Dec(|Servers(logs)|) + " servers";
              var word := if |logs| == 1 then "line" else "lines";
              Rows(logs, level) == ["mcp " + what + " \U{B7} " + Strings.Dec(|logs|) + " log " + word
                                    + " \U{B7} `ui.mcp_log = \"full\"` to read them"]
  {
    if logs != [] {
      OneServerIff(logs);
    }
  }

  lemma OneServerIff(logs: seq<Line>)
    requires logs != []
    ensures |Servers(logs)| == 1 <==> forall l :: l in logs ==> l.0 == logs[0].0
    ensures |Servers(logs)| == 1 ==> Servers(logs)[0] == logs[0].0
  {
    ServersHold(logs);
    var servers := Servers(logs);
    assert logs[0].0 in servers;
    if |servers| == 1 {
      assert servers[0] == logs[0].0;
      forall l | l in logs
        ensures l.0 == logs[0].0
      {
        assert l.0 in servers;
      }
    } else {
      var other := if servers[0] == logs[0].0 then servers[1] else servers[0];
      assert other in servers && other != logs[0].0;
      var i :| 0 <= i < |logs| && logs[i].0 == other;
      assert logs[i] in logs;
    }
  }
}
