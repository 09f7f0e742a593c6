/**
 A conversation with a model and how it is made to fit a budget: `fit` of
 `crates/arsy-code/src/agent/budget.rs`, which the subagent loop calls before every
 request. What it must keep is the pairing of tool calls with their results.
 */
module Dialogue {
  import opened Wrappers
  import opened ConfigEdit

  datatype Role = User | Assistant

  datatype Call = Call(id: string, name: string, arguments: Json)

  /** `Opaque` is content no loop looks into: an image, or a provider's reasoning state. */
  datatype Content =
    | TextContent(text: string)
    | ToolCall(id: string, name: string, arguments: Json)
    | ToolResult(id: string, content: string, isError: bool)
    | Opaque(state: Json)

  datatype Message = Message(role: Role, content: seq<Content>)

  // -- Pairing ----------------------------------------------------------------

  function CallId(c: Content): seq<string> {
    if c.ToolCall? then [c.id] else []
  }

  function CallIds(content: seq<Content>): seq<string> {
    if content == [] then [] else CallId(content[0]) + CallIds(content[1..])
  }

  function ResultId(c: Content): seq<string> {
    if c.ToolResult? then [c.id] else []
  }

  function ResultIds(content: seq<Content>): seq<string> {
    if content == [] then [] else ResultId(content[0]) + ResultIds(content[1..])
  }

  /** Only the assistant calls and only the user answers. */
  predicate InRole(m: Message) {
    if m.role.User? then CallIds(m.content) == [] else ResultIds(m.content) == []
  }

  predicate Answers(m: Message, before: Message) {
    ResultIds(m.content) == CallIds(before.content)
  }

  predicate AllInRole(ms: seq<Message>) {
    forall i :: 0 <= i < |ms| ==> InRole(ms[i])
  }

  predicate Chained(ms: seq<Message>) {
    forall i :: 0 < i < |ms| ==> Answers(ms[i], ms[i - 1])
  }

  /**
   Every message answers exactly the calls of the one before it, in order, and the calls
   of the last one, `open`, are still to be answered.
   */
  predicate PairedBut(ms: seq<Message>, open: seq<string>) {
    && ms != [] && AllInRole(ms) && Chained(ms)
    && ms[0].role.User? && ResultIds(ms[0].content) == []
    && CallIds(ms[|ms| - 1].content) == open
  }

  /** A conversation a provider accepts: each call answered in the very next message. */
  predicate Paired(ms: seq<Message>) {
    PairedBut(ms, [])
  }

  /** That, in full: what a provider accepts of the ids. */
  lemma PairedSays(ms: seq<Message>)
    ensures Paired(ms) <==>
            && ms != [] && ms[0].role == User && ResultIds(ms[0].content) == []
            && CallIds(ms[|ms| - 1].content) == []
            && (forall i :: 0 <= i < |ms| ==>
                  if ms[i].role == User then CallIds(ms[i].content) == [] else ResultIds(ms[i].content) == [])
            && forall i :: 0 < i < |ms| ==> ResultIds(ms[i].content) == CallIds(ms[i - 1].content)
  {
    assert AllInRole(ms) <==> forall i :: 0 <= i < |ms| ==>
      if ms[i].role == User then CallIds(ms[i].content) == [] else ResultIds(ms[i].content) == [];
    assert Chained(ms) <==> forall i :: 0 < i < |ms| ==> ResultIds(ms[i].content) == CallIds(ms[i - 1].content) by {
      if forall i :: 0 < i < |ms| ==> ResultIds(ms[i].content) == CallIds(ms[i - 1].content) {
        forall i | 0 < i < |ms|
          ensures Answers(ms[i], ms[i - 1])
        {
        }
      }
      if Chained(ms) {
        forall i | 0 < i < |ms|
          ensures ResultIds(ms[i].content) == CallIds(ms[i - 1].content)
        {
          assert Answers(ms[i], ms[i - 1]);
        }
      }
    }
  }

  lemma Associate<T>(a: seq<T>, b: seq<T>, c: seq<T>)
    ensures (a + b) + c == a + (b + c)
  {
  }

  lemma FirstOfJoin<T>(a: seq<T>, b: seq<T>)
    requires a != []
    ensures (a + b)[0] == a[0] && (a + b)[1..] == a[1..] + b
  {
  }

  lemma {:induction false} CallIdsJoin(a: seq<Content>, b: seq<Content>)
    ensures CallIds(a + b) == CallIds(a) + CallIds(b)
  {
    if a == [] {
      assert a + b == b;
    } else {
      FirstOfJoin(a, b);
      CallIdsJoin(a[1..], b);
      Associate(CallId(a[0]), CallIds(a[1..]), CallIds(b));
    }
  }

  lemma {:induction false} ResultIdsJoin(a: seq<Content>, b: seq<Content>)
    ensures ResultIds(a + b) == ResultIds(a) + ResultIds(b)
  {
    if a == [] {
      assert a + b == b;
    } else {
      FirstOfJoin(a, b);
      ResultIdsJoin(a[1..], b);
      Associate(ResultId(a[0]), ResultIds(a[1..]), ResultIds(b));
    }
  }

  lemma IdsJoin(a: seq<Content>, b: seq<Content>)
    ensures CallIds(a + b) == CallIds(a) + CallIds(b)
    ensures ResultIds(a + b) == ResultIds(a) + ResultIds(b)
  {
    CallIdsJoin(a, b);
    ResultIdsJoin(a, b);
  }

  lemma IdsOfOne(c: Content)
    ensures CallIds([c]) == (match c case ToolCall(id, _, _) => [id] case _ => [])
    ensures ResultIds([c]) == (match c case ToolResult(id, _, _) => [id] case _ => [])
  {
    assert [c][1..] == [];
  }

  predicate CarriesResult(m: Message) {
    exists i :: 0 <= i < |m.content| && m.content[i].ToolResult?
  }

  lemma {:induction false} CarriesIffIds(content: seq<Content>)
    ensures (exists i :: 0 <= i < |content| && content[i].ToolResult?) <==> ResultIds(content) != []
  {
    if content != [] && !content[0].ToolResult? {
      CarriesIffIds(content[1..]);
      assert forall i :: 0 < i < |content| ==> content[i] == content[1..][i - 1];
    }
  }

  /** A message that answers what the last one called may be appended. */
  lemma PairedGrows(ms: seq<Message>, open: seq<string>, m: Message)
    requires PairedBut(ms, open)
    requires InRole(m) && ResultIds(m.content) == open
    ensures PairedBut(ms + [m], CallIds(m.content))
  {
    var all := ms + [m];
    assert forall i :: 0 <= i < |ms| ==> all[i] == ms[i];
    forall i | 0 < i < |all|
      ensures Answers(all[i], all[i - 1])
    {
      assert all[i - 1] == ms[i - 1];
      assert i == |ms| ==> all[i] == m;
    }
    assert all[|ms|] == m;
  }

  // -- Fitting ----------------------------------------------------------------

  const KEEP_RECENT: nat := 6
  const ELIDED := "[earlier result elided"

  /**
   What the fold depends on beside the conversation: the budget, the token estimate, the
   results the ranker drops, the stub put for one, and the text that describes what was
   folded. Nothing is assumed of them.
   */
  datatype Fitter = Fitter(
    budget: nat,
    estimate: seq<Message> -> nat,
    stale: seq<Message> -> set<(nat, nat)>,
    stub: Content -> string,
    describe: seq<Message> -> string
  )

  /** A dropped result becomes a stub; a failure or an earlier stub is never dropped. */
  function ElideOne(f: Fitter, c: Content, dropped: bool): Content {
    if dropped && c.ToolResult? && !c.isError && !(ELIDED <= c.content) then c.(content := f.stub(c)) else c
  }

  function ElideMessage(f: Fitter, m: Message, i: nat, stale: set<(nat, nat)>): Message {
    m.(content := seq(|m.content|, j requires 0 <= j < |m.content| => ElideOne(f, m.content[j], (i, j) in stale)))
  }

  function Elided(f: Fitter, ms: seq<Message>): seq<Message> {
    seq(|ms|, i requires 0 <= i < |ms| => ElideMessage(f, ms[i], i, f.stale(ms)))
  }

  /** The last place from 2 to `n` that is not in front of a tool result. */
  function LastCut(ms: seq<Message>, n: nat): (cut: Option<nat>)
    requires n < |ms|
    ensures cut.Some? ==> 2 <= cut.value <= n && !CarriesResult(ms[cut.value])
  {
    if n < 2 then None
    else if !CarriesResult(ms[n]) then Some(n)
    else LastCut(ms, n - 1)
  }

  function CompactionCut(ms: seq<Message>): (cut: Option<nat>)
    ensures cut.Some? ==> 2 <= cut.value <= |ms| - KEEP_RECENT && !CarriesResult(ms[cut.value])
  {
    if |ms| < KEEP_RECENT then None else LastCut(ms, |ms| - KEEP_RECENT)
  }

  /** Words of the operator's own rather than only tool results. */
  predicate IsInstruction(m: Message) {
    m.role.User? && !CarriesResult(m) && exists i :: 0 <= i < |m.content| && m.content[i].TextContent?
  }

  function LatestInstruction(ms: seq<Message>): (k: Option<nat>)
    ensures k.Some? ==> k.value < |ms| && IsInstruction(ms[k.value])
    ensures forall i :: 0 <= i < |ms| && IsInstruction(ms[i]) ==> k.Some? && i <= k.value
  {
    if ms == [] then None
    else if IsInstruction(ms[|ms| - 1]) then Some(|ms| - 1)
    else LatestInstruction(ms[..|ms| - 1])
  }

  const KEPT_WHOLE := "The request this turn is working on, kept whole:"

  /** The instruction that a cut would fold, if it is one of the messages folded. */
  function Rescued(ms: seq<Message>, cut: nat): Option<nat> {
    var k := LatestInstruction(ms);
    if k.Some? && 1 <= k.value < cut then k else None
  }

  function Summarized(ms: seq<Message>, cut: nat): seq<Message>
    requires 2 <= cut <= |ms|
  {
    var k := Rescued(ms, cut);
    if k.Some? then ms[1..k.value] + ms[k.value + 1..cut] else ms[1..cut]
  }

  function Summary(f: Fitter, ms: seq<Message>, cut: nat): Message
    requires 2 <= cut <= |ms|
  {
    var k := Rescued(ms, cut);
    Message(User, [TextContent(f.describe(Summarized(ms, cut)))] +
      if k.Some? then [TextContent(KEPT_WHOLE)] + ms[k.value].content else [])
  }

  /** The older dialogue folded into one message; a short conversation is left alone. */
  function Folded(f: Fitter, ms: seq<Message>): seq<Message> {
    var cut := CompactionCut(ms);
    if cut.None? then ms else [ms[0], Summary(f, ms, cut.value)] + ms[cut.value..]
  }

  function Fit(f: Fitter, ms: seq<Message>): seq<Message> {
    if f.estimate(ms) <= f.budget then ms
    else
      var elided := Elided(f, ms);
      if f.estimate(elided) <= f.budget then elided else Folded(f, elided)
  }

  // -- Fitting keeps the pairs --------------------------------------------------

  lemma {:induction false} SameIds(a: seq<Content>, b: seq<Content>)
    requires |a| == |b|
    requires forall j :: 0 <= j < |a| ==>
      a[j] == b[j] || (a[j].ToolResult? && b[j].ToolResult? && a[j].id == b[j].id)
    ensures CallIds(a) == CallIds(b) && ResultIds(a) == ResultIds(b)
  {
    if a == [] {
    } else {
      SameIds(a[1..], b[1..]);
    }
  }

  lemma ElideKeepsIds(f: Fitter, m: Message, i: nat, stale: set<(nat, nat)>)
    ensures var e := ElideMessage(f, m, i, stale);
            e.role == m.role && CallIds(e.content) == CallIds(m.content) && ResultIds(e.content) == ResultIds(m.content)
    ensures !CarriesResult(m) ==> ElideMessage(f, m, i, stale) == m
  {
    SameIds(m.content, ElideMessage(f, m, i, stale).content);
    if !CarriesResult(m) {
      assert ElideMessage(f, m, i, stale).content == m.content;
    }
  }

  predicate SameRoleAndIds(a: Message, b: Message) {
    a.role == b.role && CallIds(a.content) == CallIds(b.content) && ResultIds(a.content) == ResultIds(b.content)
  }

  lemma SameIdsAnswer(m: Message, before: Message, m': Message, before': Message)
    requires Answers(m, before) && SameRoleAndIds(m', m) && SameRoleAndIds(before', before)
    ensures Answers(m', before')
  {
  }

  lemma SameIdsInRole(m: Message, m': Message)
    requires InRole(m) && SameRoleAndIds(m', m)
    ensures InRole(m')
  {
  }

  predicate SameThroughout(ms: seq<Message>, out: seq<Message>) {
    |out| == |ms| && forall i :: 0 <= i < |ms| ==> SameRoleAndIds(out[i], ms[i])
  }

  lemma SameIdsChained(ms: seq<Message>, out: seq<Message>)
    requires Chained(ms) && SameThroughout(ms, out)
    ensures Chained(out)
  {
    forall i | 0 < i < |out|
      ensures Answers(out[i], out[i - 1])
    {
      SameIdsAnswer(ms[i], ms[i - 1], out[i], out[i - 1]);
    }
  }

  lemma SameIdsAllInRole(ms: seq<Message>, out: seq<Message>)
    requires AllInRole(ms) && SameThroughout(ms, out)
    ensures AllInRole(out)
  {
    forall i | 0 <= i < |out|
      ensures InRole(out[i])
    {
      SameIdsInRole(ms[i], out[i]);
    }
  }

  lemma SameIdsPaired(ms: seq<Message>, out: seq<Message>)
    requires Paired(ms) && SameThroughout(ms, out)
    ensures Paired(out)
  {
    SameIdsChained(ms, out);
    SameIdsAllInRole(ms, out);
    assert SameRoleAndIds(out[0], ms[0]) && SameRoleAndIds(out[|ms| - 1], ms[|ms| - 1]);
  }

  lemma ElideKeepsPairs(f: Fitter, ms: seq<Message>)
    requires Paired(ms)
    ensures Paired(Elided(f, ms)) && Elided(f, ms)[0] == ms[0]
  {
    var stale := f.stale(ms);
    forall i | 0 <= i < |ms|
      ensures SameRoleAndIds(Elided(f, ms)[i], ms[i])
    {
      ElideKeepsIds(f, ms[i], i, stale);
    }
    SameIdsPaired(ms, Elided(f, ms));
    CarriesIffIds(ms[0].content);
    ElideKeepsIds(f, ms[0], 0, stale);
  }

  /** The summary neither calls nor answers. */
  lemma SummaryIsPlain(f: Fitter, ms: seq<Message>, cut: nat)
    requires 2 <= cut <= |ms| && forall i :: 0 <= i < |ms| ==> InRole(ms[i])
    ensures var s := Summary(f, ms, cut); s.role.User? && CallIds(s.content) == [] && ResultIds(s.content) == []
  {
    var k := Rescued(ms, cut);
    var head := [TextContent(f.describe(Summarized(ms, cut)))];
    assert head[1..] == [];
    if k.Some? {
      var body := ms[k.value].content;
      CarriesIffIds(body);
      var note := [TextContent(KEPT_WHOLE)];
      assert note[1..] == [];
      IdsJoin(note, body);
      IdsJoin(head, note + body);
    } else {
      assert head + [] == head;
    }
  }

  /** A later part of a paired conversation that begins by answering nothing. */
  predicate PairedTail(ms: seq<Message>) {
    && ms != [] && AllInRole(ms) && Chained(ms)
    && ResultIds(ms[0].content) == [] && CallIds(ms[|ms| - 1].content) == []
  }

  lemma TailOfPaired(ms: seq<Message>, cut: nat)
    requires Paired(ms) && cut < |ms| && ResultIds(ms[cut].content) == []
    ensures PairedTail(ms[cut..])
  {
    var tail := ms[cut..];
    forall i | 0 < i < |tail|
      ensures Answers(tail[i], tail[i - 1])
    {
      assert tail[i] == ms[cut + i] && tail[i - 1] == ms[cut + i - 1];
      assert Answers(ms[cut + i], ms[cut + i - 1]);
    }
    forall i | 0 <= i < |tail|
      ensures InRole(tail[i])
    {
      assert tail[i] == ms[cut + i] && InRole(ms[cut + i]);
    }
    assert tail[0] == ms[cut] && tail[|tail| - 1] == ms[|ms| - 1];
  }

  /** A message that neither calls nor answers may go in front. */
  lemma PlainInFront(m: Message, tail: seq<Message>)
    requires PairedTail(tail) && m.role.User? && CallIds(m.content) == [] && ResultIds(m.content) == []
    ensures PairedTail([m] + tail)
  {
    var all := [m] + tail;
    forall i | 0 < i < |all|
      ensures Answers(all[i], all[i - 1])
    {
      assert all[i] == tail[i - 1];
      assert i > 1 ==> all[i - 1] == tail[i - 2];
    }
    assert forall i :: 0 < i < |all| ==> all[i] == tail[i - 1];
  }

  /** A plain message may stand for all those between the first and a message that answers nothing. */
  lemma SpliceKeepsPairs(ms: seq<Message>, s: Message, cut: nat)
    requires Paired(ms) && 2 <= cut < |ms| && ResultIds(ms[cut].content) == []
    requires s.role.User? && CallIds(s.content) == [] && ResultIds(s.content) == []
    ensures Paired([ms[0], s] + ms[cut..])
  {
    TailOfPaired(ms, cut);
    PlainInFront(s, ms[cut..]);
    assert InRole(ms[0]);
    PlainInFront(ms[0], [s] + ms[cut..]);
    assert [ms[0]] + ([s] + ms[cut..]) == [ms[0], s] + ms[cut..];
  }

  lemma FoldKeepsPairs(f: Fitter, ms: seq<Message>)
    requires Paired(ms)
    ensures Paired(Folded(f, ms)) && Folded(f, ms)[0] == ms[0]
  {
    var at := CompactionCut(ms);
    if at.Some? {
      SummaryIsPlain(f, ms, at.value);
      CarriesIffIds(ms[at.value].content);
      SpliceKeepsPairs(ms, Summary(f, ms, at.value), at.value);
    }
  }

  /**
   Fitting, whatever it drops and folds, gives back a conversation with every call still
   answered in the next message, and never touches the message it opens with.
   */
  lemma FitKeepsPairs(f: Fitter, ms: seq<Message>)
    requires Paired(ms)
    ensures Paired(Fit(f, ms)) && Fit(f, ms)[0] == ms[0]
  {
    ElideKeepsPairs(f, ms);
    FoldKeepsPairs(f, Elided(f, ms));
  }

  // -- Folding -----------------------------------------------------------------

  lemma {:induction false} LastCutIsLast(ms: seq<Message>, n: nat)
    requires n < |ms|
    ensures forall c :: 2 <= c <= n && !CarriesResult(ms[c]) ==> LastCut(ms, n).Some? && c <= LastCut(ms, n).value
  {
    if n >= 2 && CarriesResult(ms[n]) {
      LastCutIsLast(ms, n - 1);
    }
  }

  /**
   A fold makes the conversation shorter exactly when it can be cut at 3 or later. The
   code looks for a cut from 2 on, where the summary takes the place of a single message,
   although its comment asks for two.
   */
  lemma FoldShortensIff(f: Fitter, ms: seq<Message>)
    ensures |Folded(f, ms)| < |ms| <==> exists c :: 3 <= c <= |ms| - KEEP_RECENT && !CarriesResult(ms[c])
    ensures |ms| >= KEEP_RECENT ==> |Folded(f, ms)| >= KEEP_RECENT && |ms| >= |Folded(f, ms)|
    ensures |ms| >= KEEP_RECENT ==>
              Folded(f, ms)[|Folded(f, ms)| - KEEP_RECENT..] == ms[|ms| - KEEP_RECENT..]
  {
    if |ms| >= KEEP_RECENT {
      LastCutIsLast(ms, |ms| - KEEP_RECENT);
    }
  }

  // -- What fitting achieves --------------------------------------------------

  /** A conversation within the budget is left exactly as it was. */
  lemma FitLeavesAlone(f: Fitter, ms: seq<Message>)
    requires f.estimate(ms) <= f.budget
    ensures Fit(f, ms) == ms
  {
  }

  /** A result the ranker drops that is neither a failure nor a stub already. */
  predicate IsStale(f: Fitter, ms: seq<Message>, i: nat, j: nat)
    requires i < |ms| && j < |ms[i].content|
  {
    var c := ms[i].content[j];
    (i, j) in f.stale(ms) && c.ToolResult? && !c.isError && !("[earlier result elided" <= c.content)
  }

  /** The same conversation with exactly the stale results stubbed, each under its own id. */
  ghost predicate StubbedAt(f: Fitter, ms: seq<Message>, out: seq<Message>) {
    && |out| == |ms|
    && forall i :: 0 <= i < |ms| ==>
         && out[i].role == ms[i].role && |out[i].content| == |ms[i].content|
         && forall j :: 0 <= j < |ms[i].content| ==>
              out[i].content[j] ==
              if IsStale(f, ms, i, j) then ToolResult(ms[i].content[j].id, f.stub(ms[i].content[j]), false)
              else ms[i].content[j]
  }

  lemma ElidedIsStubbed(f: Fitter, ms: seq<Message>)
    ensures StubbedAt(f, ms, Elided(f, ms))
  {
  }

  /** When stubbing the stale results is enough, they are stubbed, the rest is kept, and it fits. */
  lemma FitByStubbing(f: Fitter, ms: seq<Message>)
    requires f.estimate(ms) > f.budget && f.estimate(Elided(f, ms)) <= f.budget
    ensures f.estimate(Fit(f, ms)) <= f.budget && StubbedAt(f, ms, Fit(f, ms))
  {
    ElidedIsStubbed(f, ms);
  }

  /** A cut: the last place, from 2 on and before the last six, that is not in front of a result. */
  ghost predicate IsCut(ms: seq<Message>, cut: nat) {
    && 2 <= cut <= |ms| - 6 && !CarriesResult(ms[cut])
    && forall c :: cut < c <= |ms| - 6 ==> CarriesResult(ms[c])
  }

  /**
   What a fold at `cut` is: the opening message, one user message that describes what was
   folded, with the newest instruction after it if that was among it, and the rest.
   */
  ghost predicate FoldedAt(f: Fitter, ms: seq<Message>, cut: nat, out: seq<Message>)
    requires 2 <= cut <= |ms|
  {
    && |out| == |ms| - cut + 2 && out[0] == ms[0] && out[2..] == ms[cut..] && out[1].role == User
    && (var k := LatestInstruction(ms);
        if k.Some? && 0 < k.value < cut then
          out[1].content == [TextContent(f.describe(ms[1..k.value] + ms[k.value + 1..cut]))]
                            + [TextContent("The request this turn is working on, kept whole:")] + ms[k.value].content
        else out[1].content == [TextContent(f.describe(ms[1..cut]))])
  }

  lemma FoldedIs(f: Fitter, ms: seq<Message>, cut: nat)
    requires IsCut(ms, cut)
    ensures FoldedAt(f, ms, cut, Folded(f, ms))
  {
    LastCutIsLast(ms, |ms| - 6);
    assert CompactionCut(ms) == Some(cut);
    var k := LatestInstruction(ms);
    var head := [TextContent(f.describe(Summarized(ms, cut)))];
    if Rescued(ms, cut).Some? {
      var note := [TextContent(KEPT_WHOLE)];
      assert head + (note + ms[k.value].content) == head + note + ms[k.value].content;
    } else {
      assert head + [] == head;
    }
  }

  lemma NoCutLeavesAlone(f: Fitter, ms: seq<Message>)
    requires forall c :: 2 <= c <= |ms| - 6 ==> CarriesResult(ms[c])
    ensures Folded(f, ms) == ms
  {
  }

  lemma ElideKeepsCarrying(f: Fitter, ms: seq<Message>)
    ensures |Elided(f, ms)| == |ms|
    ensures forall i :: 0 <= i < |ms| ==> (CarriesResult(Elided(f, ms)[i]) <==> CarriesResult(ms[i]))
  {
    forall i | 0 <= i < |ms|
      ensures CarriesResult(Elided(f, ms)[i]) <==> CarriesResult(ms[i])
    {
      ElideKeepsIds(f, ms[i], i, f.stale(ms));
      CarriesIffIds(ms[i].content);
      CarriesIffIds(Elided(f, ms)[i].content);
    }
  }

  /**
   When stubbing is not enough, the stubbed conversation is folded at its cut, so that it
   fits whenever the fold does; without a cut it stays as stubbed.
   */
  lemma FitByFolding(f: Fitter, ms: seq<Message>)
    requires f.estimate(ms) > f.budget && f.estimate(Elided(f, ms)) > f.budget
    ensures StubbedAt(f, ms, Elided(f, ms))
    ensures forall cut :: IsCut(Elided(f, ms), cut) ==> FoldedAt(f, Elided(f, ms), cut, Fit(f, ms))
    ensures (forall c :: 2 <= c <= |ms| - 6 ==> CarriesResult(ms[c])) ==> Fit(f, ms) == Elided(f, ms)
  {
    var stubbed := Elided(f, ms);
    ElidedIsStubbed(f, ms);
    forall cut | IsCut(stubbed, cut)
      ensures FoldedAt(f, stubbed, cut, Fit(f, ms))
    {
      FoldedIs(f, stubbed, cut);
    }
    if forall c :: 2 <= c <= |ms| - 6 ==> CarriesResult(ms[c]) {
      ElideKeepsCarrying(f, ms);
      NoCutLeavesAlone(f, stubbed);
    }
  }

  /** It can be cut at 3 or later, before the last six. */
  ghost predicate Cuttable(ms: seq<Message>) {
    exists c :: 3 <= c <= |ms| - 6 && !CarriesResult(ms[c])
  }

  lemma SameCuts(ms: seq<Message>, out: seq<Message>)
    requires |out| == |ms| && forall i :: 0 <= i < |ms| ==> (CarriesResult(out[i]) <==> CarriesResult(ms[i]))
    ensures Cuttable(out) <==> Cuttable(ms)
  {
    if c :| 3 <= c <= |out| - 6 && !CarriesResult(out[c]) {
      assert !CarriesResult(ms[c]);
    }
    if c :| 3 <= c <= |ms| - 6 && !CarriesResult(ms[c]) {
      assert !CarriesResult(out[c]);
    }
  }

  predicate KeepsLastSix(ms: seq<Message>, out: seq<Message>) {
    |ms| >= 6 ==> |out| >= 6 && out[|out| - 6..] == ms[|ms| - 6..]
  }

  lemma FoldCuts(f: Fitter, ms: seq<Message>)
    ensures |Folded(f, ms)| < |ms| <==> Cuttable(ms)
    ensures KeepsLastSix(ms, Folded(f, ms))
  {
    FoldShortensIff(f, ms);
  }

  lemma FitIsFold(f: Fitter, ms: seq<Message>)
    requires f.estimate(ms) > f.budget && f.estimate(Elided(f, ms)) > f.budget
    ensures Fit(f, ms) == Folded(f, Elided(f, ms))
  {
  }

  /** That makes it shorter exactly when it can be cut at 3 or later, and keeps the last six as stubbed. */
  lemma FitShortens(f: Fitter, ms: seq<Message>)
    requires f.estimate(ms) > f.budget && f.estimate(Elided(f, ms)) > f.budget
    ensures |Fit(f, ms)| < |ms| <==> Cuttable(ms)
    ensures |ms| >= 6 ==>
              |Fit(f, ms)| >= 6 && Fit(f, ms)[|Fit(f, ms)| - 6..] == Elided(f, ms)[|ms| - 6..]
  {
    ElideKeepsCarrying(f, ms);
    SameCuts(ms, Elided(f, ms));
    FoldCuts(f, Elided(f, ms));
    FitIsFold(f, ms);
  }

  // -- What fitting never loses --------------------------------------------------

  predicate HoldsWhole(ms: seq<Message>, content: seq<Content>) {
    exists k :: 0 <= k < |ms| && EndsWith(ms[k], content)
  }

  predicate EndsWith(m: Message, content: seq<Content>) {
    |content| <= |m.content| && m.content[|m.content| - |content|..] == content
  }

  lemma HoldsWholeIs(out: seq<Message>, words: seq<Content>)
    requires HoldsWhole(out, words)
    ensures exists i :: 0 <= i < |out| && |words| <= |out[i].content|
                        && out[i].content[|out[i].content| - |words|..] == words
  {
    var i :| 0 <= i < |out| && EndsWith(out[i], words);
  }

  lemma FoldKeepsInstruction(f: Fitter, ms: seq<Message>)
    requires LatestInstruction(ms).Some?
    ensures HoldsWhole(Folded(f, ms), ms[LatestInstruction(ms).value].content)
  {
    var k := LatestInstruction(ms).value;
    var out := Folded(f, ms);
    var at := CompactionCut(ms);
    var place := if at.None? then k else if k == 0 then 0 else if k < at.value then 1 else k - at.value + 2;
    assert EndsWith(out[place], ms[k].content);
  }

  lemma ElideKeepsWords(f: Fitter, m: Message, i: nat, stale: set<(nat, nat)>)
    ensures IsInstruction(ElideMessage(f, m, i, stale)) <==> IsInstruction(m)
    ensures IsInstruction(m) ==> ElideMessage(f, m, i, stale) == m
  {
    ElideKeepsIds(f, m, i, stale);
    CarriesIffIds(m.content);
    CarriesIffIds(ElideMessage(f, m, i, stale).content);
  }

  lemma {:induction false} LatestIsSame(a: seq<Message>, b: seq<Message>)
    requires |a| == |b| && forall i :: 0 <= i < |a| ==> (IsInstruction(a[i]) <==> IsInstruction(b[i]))
    ensures LatestInstruction(a) == LatestInstruction(b)
  {
    if a != [] && !IsInstruction(a[|a| - 1]) {
      LatestIsSame(a[..|a| - 1], b[..|b| - 1]);
    }
  }

  lemma ElideKeepsInstruction(f: Fitter, ms: seq<Message>)
    ensures LatestInstruction(Elided(f, ms)) == LatestInstruction(ms)
    ensures LatestInstruction(ms).Some? ==>
              Elided(f, ms)[LatestInstruction(ms).value] == ms[LatestInstruction(ms).value]
  {
    var e, stale := Elided(f, ms), f.stale(ms);
    forall i | 0 <= i < |ms|
      ensures IsInstruction(e[i]) <==> IsInstruction(ms[i])
    {
      ElideKeepsWords(f, ms[i], i, stale);
    }
    LatestIsSame(e, ms);
    var k := LatestInstruction(ms);
    if k.Some? {
      ElideKeepsWords(f, ms[k.value], k.value, stale);
    }
  }

  /** An instruction is a message of the user's with some text and no tool result. */
  lemma InstructionIff(m: Message)
    ensures IsInstruction(m) <==>
            && m.role == User && (exists c :: c in m.content && c.TextContent?)
            && forall c :: c in m.content ==> !c.ToolResult?
  {
    if exists c :: c in m.content && c.TextContent? {
      var c :| c in m.content && c.TextContent?;
      var i :| 0 <= i < |m.content| && m.content[i] == c;
      assert m.content[i].TextContent?;
    }
  }

  lemma FitKeepsWhole(f: Fitter, ms: seq<Message>)
    requires LatestInstruction(ms).Some?
    ensures HoldsWhole(Fit(f, ms), ms[LatestInstruction(ms).value].content)
  {
    var k := LatestInstruction(ms).value;
    ElideKeepsInstruction(f, ms);
    FoldKeepsInstruction(f, Elided(f, ms));
    assert EndsWith(ms[k], ms[k].content);
  }

  lemma LatestIs(ms: seq<Message>, k: nat)
    requires k < |ms| && IsInstruction(ms[k]) && forall i :: k < i < |ms| ==> !IsInstruction(ms[i])
    ensures LatestInstruction(ms) == Some(k)
  {
  }

  /**
   The newest instruction reaches the model word for word, however much is folded: some
   message afterwards ends with exactly its content.
   */
  lemma FitKeepsInstruction(f: Fitter, ms: seq<Message>, k: nat)
    requires k < |ms| && IsInstruction(ms[k]) && forall i :: k < i < |ms| ==> !IsInstruction(ms[i])
    ensures var words, out := ms[k].content, Fit(f, ms);
            exists i :: 0 <= i < |out| && |words| <= |out[i].content|
                        && out[i].content[|out[i].content| - |words|..] == words
  {
    LatestIs(ms, k);
    FitKeepsWhole(f, ms);
    HoldsWholeIs(Fit(f, ms), ms[k].content);
  }

  /** Eight messages of words: the fold replaces one of them and saves nothing. */
  lemma FoldOfOneMessage(f: Fitter, m: Message)
    requires IsInstruction(m)
    ensures var ms := seq(8, _ => m);
            CompactionCut(ms) == Some(2) && |Summarized(ms, 2)| == 1 && |Folded(f, ms)| == |ms|
  {
    var ms := seq(8, _ => m);
    assert !CarriesResult(ms[2]);
    assert LastCut(ms, 2) == Some(2);
    assert IsInstruction(ms[7]);
  }
}
