/**
 The approval modes of `approval.rs`: the cell that holds the current mode and the one to
 go back to from Plan, and the matching of commands against an allowlist.
 */
module Approval {
  import opened Strings

  datatype Mode = Default | AcceptEdits | Plan | Auto | DontAsk | BypassPermissions

  datatype Target = ToAuto | ToAcceptEdits | ToDefault

  function TargetMode(t: Target): Mode {
    match t
    case ToAuto => Auto
    case ToAcceptEdits => AcceptEdits
    case ToDefault => Default
  }

  /** The mode Shift+Tab steps to. */
  function CycleWith(m: Mode, bypass: bool): Mode {
    match m
    case Default => AcceptEdits
    case AcceptEdits => Plan
    case Plan => Auto
    case Auto => if bypass then BypassPermissions else Default
    case _ => Default
  }

  function AsU8(m: Mode): nat {
    match m
    case Default => 0
    case AcceptEdits => 1
    case Plan => 2
    case Auto => 3
    case DontAsk => 4
    case BypassPermissions => 5
  }

  function FromU8(value: nat): (m: Mode)
    ensures value <= 5 ==> AsU8(m) == value
  {
    match value
    case 1 => AcceptEdits
    case 2 => Plan
    case 3 => Auto
    case 4 => DontAsk
    case 5 => BypassPermissions
    case _ => Default
  }

  // -- The machine -------------------------------------------------------------

  datatype Cell = Cell(current: Mode, beforePlan: Mode, bypass: bool)

  datatype Op = SetMode(mode: Mode) | EnterPlan | Step | ApprovePlan(target: Target) | CancelPlan | AllowBypass

  function New(m: Mode): Cell {
    Cell(m, Default, false)
  }

  function Entered(c: Cell): Cell {
    c.(current := Plan, beforePlan := if c.current != Plan then c.current else c.beforePlan)
  }

  function WithMode(c: Cell, m: Mode): Cell {
    if m == Plan then Entered(c) else c.(current := m, beforePlan := m)
  }

  function Apply(c: Cell, op: Op): Cell {
    match op
    case SetMode(m) => WithMode(c, m)
    case EnterPlan => Entered(c)
    case Step => WithMode(c, CycleWith(c.current, c.bypass))
    case ApprovePlan(t) => WithMode(c, TargetMode(t))
    case CancelPlan => WithMode(c, c.beforePlan)
    case AllowBypass => c.(bypass := true)
  }

  function After(c: Cell, ops: seq<Op>): Cell
    decreases |ops|
  {
    if ops == [] then c else After(Apply(c, ops[0]), ops[1..])
  }

  /** The cell as it is kept: two bytes and a flag. */
  class ApprovalCell {
    var current: nat
    var beforePlan: nat
    var bypass: bool

    function Value(): Cell
      reads this
    {
      Cell(FromU8(current), FromU8(beforePlan), bypass)
    }

    constructor (mode: Mode)
      ensures Value() == New(mode)
    {
      current, beforePlan, bypass := AsU8(mode), AsU8(Default), false;
    }

    method SetMode(mode: Mode)
      modifies this`current, this`beforePlan
      ensures Value() == Apply(old(Value()), Op.SetMode(mode))
    {
      if mode == Plan {
        EnterPlan();
      } else {
        current := AsU8(mode);
        beforePlan := AsU8(mode);
      }
    }

    method EnterPlan()
      modifies this`current, this`beforePlan
      ensures Value() == Apply(old(Value()), Op.EnterPlan)
    {
      var mode := FromU8(current);
      if mode != Plan {
        beforePlan := AsU8(mode);
      }
      current := AsU8(Plan);
    }

    method NextMode() returns (mode: Mode)
      ensures mode == CycleWith(Value().current, bypass)
    {
      mode := CycleWith(FromU8(current), bypass);
    }

    /** Shift+Tab. */
    method Step() returns (mode: Mode)
      modifies this`current, this`beforePlan
      ensures Value() == Apply(old(Value()), Op.Step) && mode == Value().current
    {
      mode := NextMode();
      SetMode(mode);
    }

    method ApprovePlanAs(target: Target) returns (mode: Mode)
      modifies this`current, this`beforePlan
      ensures Value() == Apply(old(Value()), ApprovePlan(target)) && mode == Value().current
    {
      mode := TargetMode(target);
      SetMode(mode);
    }

    method CancelPlan() returns (mode: Mode)
      modifies this`current, this`beforePlan
      ensures Value() == Apply(old(Value()), Op.CancelPlan) && mode == old(Value()).beforePlan
    {
      mode := FromU8(beforePlan);
      SetMode(mode);
    }

    method AllowBypass()
      modifies this`bypass
      ensures Value() == Apply(old(Value()), Op.AllowBypass)
    {
      bypass := true;
    }
  }

  // -- Runs ---------------------------------------------------------------------

  /**
   Over every run from a new cell the mode remembered is never Plan, so a cancel always
   leaves Plan.
   */
  lemma {:induction false} RememberedIsNeverPlan(c: Cell, ops: seq<Op>)
    requires c.beforePlan != Plan
    ensures After(c, ops).beforePlan != Plan
    ensures Apply(After(c, ops), CancelPlan).current == After(c, ops).beforePlan != Plan
    decreases |ops|
  {
    if ops == [] {
    } else {
      RememberedIsNeverPlan(Apply(c, ops[0]), ops[1..]);
    }
  }

  predicate EntersPlan(op: Op) {
    op == EnterPlan || op == SetMode(Plan)
  }

  /** However often Plan is entered, one cancel restores the mode before the first entry. */
  lemma {:induction false} CancelRestores(c: Cell, ops: seq<Op>)
    requires c.current != Plan && ops != [] && forall op :: op in ops ==> op == EnterPlan || op == SetMode(Plan)
    ensures After(c, ops).current == Plan
    ensures Apply(After(c, ops), CancelPlan).current == c.current
  {
    assert ops[0] in ops;
    assert forall op :: op in ops ==> EntersPlan(op);
    StaysInPlan(Apply(c, ops[0]), ops[1..]);
  }

  lemma {:induction false} StaysInPlan(c: Cell, ops: seq<Op>)
    requires c.current == Plan && forall op :: op in ops ==> EntersPlan(op)
    ensures After(c, ops) == c
    decreases |ops|
  {
    if ops == [] {
    } else {
      assert EntersPlan(ops[0]);
      StaysInPlan(Apply(c, ops[0]), ops[1..]);
    }
  }

  /** What the keyboard reaches without naming a mode. */
  predicate Keyboard(op: Op) {
    op.EnterPlan? || op.Step? || op.ApprovePlan? || op.CancelPlan?
  }

  lemma {:induction false} KeyboardStaysBelow(c: Cell, ops: seq<Op>)
    requires forall op :: op in ops ==> Keyboard(op)
    requires !c.bypass && c.current != BypassPermissions && c.beforePlan != BypassPermissions
    ensures var d := After(c, ops);
            !d.bypass && d.current != BypassPermissions && d.beforePlan != BypassPermissions
    decreases |ops|
  {
    if ops == [] {
    } else {
      assert Keyboard(ops[0]);
      KeyboardStaysBelow(Apply(c, ops[0]), ops[1..]);
    }
  }

  /**
   From a cell where neither mode is bypass, some sequence of Shift+Tab, plan entry,
   approval and cancel reaches it exactly when the session allowed it.
   */
  lemma BypassReachedIffAllowed(c: Cell)
    requires c.current != BypassPermissions && c.beforePlan != BypassPermissions
    ensures (exists ops :: (forall op :: op in ops ==> Keyboard(op)) && After(c, ops).current == BypassPermissions) <==>
            c.bypass
  {
    if c.bypass {
      var ops := [ApprovePlan(ToAuto), Step];
      assert ops[1..] == [Step];
      assert ops[1..][1..] == [];
      assert After(c, ops) == Apply(Apply(c, ApprovePlan(ToAuto)), Step);
      assert forall op :: op in ops ==> Keyboard(op);
    }
    if ops :| (forall op :: op in ops ==> Keyboard(op)) && After(c, ops).current == BypassPermissions {
      if !c.bypass {
        KeyboardStaysBelow(c, ops);
      }
    }
  }

  /** Allowing bypass changes neither mode, and brings bypass within the keyboard's reach. */
  lemma AllowingBypassReaches(c: Cell)
    requires c.current != BypassPermissions && c.beforePlan != BypassPermissions
    ensures var d := Apply(c, AllowBypass);
            && d.current == c.current && d.beforePlan == c.beforePlan
            && exists ops :: (forall op :: op in ops ==> Keyboard(op)) && After(d, ops).current == BypassPermissions
  {
    BypassReachedIffAllowed(Apply(c, AllowBypass));
  }

  // -- Commands -------------------------------------------------------------------

  const SHELL_MARKS: set<char> := {'&', ';', '|', '`', '$', '>', '<', '(', ')', '\n', '\r'}

  predicate IsSimple(command: string) {
    forall c :: c in command ==> c !in SHELL_MARKS
  }

  /** A trimmed prefix covers a command on a word boundary. */
  predicate Covers(prefix: string, command: string) {
    && prefix != [] && prefix <= command
    && (|prefix| == |command| || IsSpace(command[|prefix|]))
  }

  predicate CommandAllowed(command: string, allowed: seq<string>) {
    IsSimple(Trim(command)) && exists i :: 0 <= i < |allowed| && Covers(Trim(allowed[i]), Trim(command))
  }

  /** The words of a command, split at white space. */
  function Words(s: string): seq<string> {
    WordsFrom(s, [])
  }

  /** The words of `s`, `word` being the one begun before it. */
  function WordsFrom(s: string, word: string): seq<string>
    decreases |s|
  {
    if s == [] then (if word == [] then [] else [word])
    else if IsSpace(s[0]) then (if word == [] then [] else [word]) + WordsFrom(s[1..], [])
    else WordsFrom(s[1..], word + [s[0]])
  }

  lemma {:induction false} WordsAppend(a: string, b: string, word: string)
    requires b == [] || IsSpace(b[0])
    ensures WordsFrom(a + b, word) == WordsFrom(a, word) + Words(b)
    decreases |a|
  {
    if a == [] {
      assert a + b == b;
      if b != [] {
        assert WordsFrom(b, []) == [] + WordsFrom(b[1..], []);
      }
    } else {
      assert (a + b)[1..] == a[1..] + b;
      WordsAppend(a[1..], b, if IsSpace(a[0]) then [] else word + [a[0]]);
    }
  }

  lemma {:induction false} TrimEndBegins(s: string)
    ensures TrimEnd(s) <= s
    decreases |s|
  {
    if s != [] && IsSpace(s[|s| - 1]) {
      TrimEndBegins(s[..|s| - 1]);
    }
  }

  lemma {:induction false} TrimStartBegins(s: string)
    ensures TrimStart(s) != [] ==> !IsSpace(TrimStart(s)[0])
    decreases |s|
  {
    if s != [] && IsSpace(s[0]) {
      TrimStartBegins(s[1..]);
    }
  }

  lemma TrimmedBegins(s: string)
    ensures Trim(s) != [] ==> !IsSpace(Trim(s)[0])
  {
    TrimStartBegins(s);
    TrimEndBegins(TrimStart(s));
  }

  lemma {:induction false} WordBegun(s: string, word: string)
    requires word != []
    ensures WordsFrom(s, word) != []
    decreases |s|
  {
    if s != [] && !IsSpace(s[0]) {
      WordBegun(s[1..], word + [s[0]]);
    }
  }

  lemma TrimmedHasWords(s: string)
    ensures Trim(s) != [] ==> Words(Trim(s)) != []
  {
    var t := Trim(s);
    TrimmedBegins(s);
    if t != [] {
      assert Words(t) == WordsFrom(t[1..], [] + [t[0]]);
      WordBegun(t[1..], [] + [t[0]]);
    }
  }

  /**
   A command an allowlist covers begins, word by word, with an entry of it, and holds none
   of the marks by which a shell would run a second one.
   */
  lemma AllowedBeginsWithEntry(command: string, allowed: seq<string>) returns (i: nat)
    requires CommandAllowed(command, allowed)
    ensures i < |allowed| && IsSimple(Trim(command))
    ensures Words(Trim(allowed[i])) != [] && Words(Trim(allowed[i])) <= Words(Trim(command))
  {
    i :| 0 <= i < |allowed| && Covers(Trim(allowed[i]), Trim(command));
    var prefix, whole := Trim(allowed[i]), Trim(command);
    assert whole == prefix + whole[|prefix|..];
    TrimmedHasWords(allowed[i]);
    WordsAppend(prefix, whole[|prefix|..], []);
  }


  /** What no allowed command holds: the marks that chain, pipe, substitute, redirect or end a line. */
  predicate HasMark(s: string) {
    exists c :: c in s && (c == '&' || c == ';' || c == '|' || c == '`' || c == '$' || c == '>' || c == '<'
                           || c == '(' || c == ')' || c == '\n' || c == '\r')
  }

  /** The entry itself, or the entry followed by white space and anything. */
  predicate BeginsWithWord(whole: string, entry: string) {
    entry != "" &&
    (whole == entry || (|entry| < |whole| && whole[..|entry|] == entry && IsSpace(whole[|entry|])))
  }

  /** Exactly which commands are allowed: trimmed, they hold no mark and begin with some trimmed entry. */
  lemma CommandAllowedIff(command: string, allowed: seq<string>)
    ensures CommandAllowed(command, allowed) <==>
            !HasMark(Trim(command)) && exists entry :: entry in allowed && BeginsWithWord(Trim(command), Trim(entry))
  {
    var whole := Trim(command);
    forall entry
      ensures BeginsWithWord(whole, Trim(entry)) <==> Covers(Trim(entry), whole)
    {
    }
    forall i | 0 <= i < |allowed|
      ensures allowed[i] in allowed
    {
    }
    assert IsSimple(whole) <==> !HasMark(whole);
  }
}
