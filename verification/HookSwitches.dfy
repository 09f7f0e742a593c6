/**
 Removing a hook and keeping the switched-off hooks off: `remove_hook` and
 `shift_disabled` of `config_edit.rs`. A hook is named by its declaration key,
 `source#Event[position].handler`, so what stays the same hook changes its name when an
 entry before it goes.
 */
module HookSwitches {
  import opened Wrappers
  import opened ConfigEdit
  import opened Strings

  // -- Declaration keys ------------------------------------------------------

  function Prefix(source: string, event: string): string {
    source + "#" + event + "["
  }

  /** The key the hook engine gives a handler of an entry. */
  function Declaration(source: string, event: string, position: nat, handler: nat): string {
    Prefix(source, event) + Dec(position) + "]." + Dec(handler)
  }

  /** Where the first `c` of `s` is, or the length of `s`. */
  function Find(s: string, c: char): (i: nat)
    ensures i <= |s|
    ensures forall j :: 0 <= j < i ==> s[j] != c
    ensures i < |s| ==> s[i] == c
  {
    if s == [] || s[0] == c then 0 else 1 + Find(s[1..], c)
  }

  datatype Parsed = Parsed(position: nat, tail: string)

  /** What `shift_disabled` makes of a key: its position and what follows, if it names one. */
  function Parse(prefix: string, key: string): Option<Parsed> {
    if !(prefix <= key) then None
    else
      var rest := key[|prefix|..];
      var i := Find(rest, ']');
      if i == |rest| || ParseUsize(rest[..i]).None? then None
      else Some(Parsed(ParseUsize(rest[..i]).value, rest[i + 1..]))
  }

  function Rename(prefix: string, p: Parsed): string {
    prefix + Dec(p.position) + "]" + p.tail
  }

  lemma FindAfter(a: string, c: char, b: string)
    requires c !in a
    ensures Find(a + [c] + b, c) == |a|
  {
    var s := a + [c] + b;
    assert forall j :: 0 <= j < |a| ==> s[j] == a[j];
    assert s[|a|] == c;
  }

  /** A renamed key parses as the position and tail it was made from. */
  lemma RenameParses(prefix: string, p: Parsed)
    requires p.position <= USIZE_MAX
    ensures Parse(prefix, Rename(prefix, p)) == Some(p)
  {
    DecParses(p.position);
    var key := Rename(prefix, p);
    var rest := key[|prefix|..];
    assert rest == Dec(p.position) + "]" + p.tail;
    FindAfter(Dec(p.position), ']', p.tail);
    assert rest[..|Dec(p.position)|] == Dec(p.position);
    assert rest[|Dec(p.position)| + 1..] == p.tail;
  }

  // -- Renumbering -----------------------------------------------------------

  /** The keys the removal touches: those naming the removed position or a later one. */
  predicate Touched(prefix: string, position: nat, key: string) {
    Parse(prefix, key).Some? && Parse(prefix, key).value.position >= position
  }

  predicate Moves(prefix: string, position: nat, key: string) {
    Parse(prefix, key).Some? && Parse(prefix, key).value.position > position
  }

  /** A moved key's new name, one position up. */
  function MovedTo(prefix: string, key: string): string
    requires Parse(prefix, key).Some? && Parse(prefix, key).value.position > 0
  {
    var p := Parse(prefix, key).value;
    Rename(prefix, p.(position := p.position - 1))
  }

  function Get(m: Fields, key: string): Option<Json> {
    if key in m then Some(m[key]) else None
  }

  /**
   What a renumbering leaves, whatever order the keys are taken in: untouched keys as they
   were, each moved key under its new name, and nothing else.
   */
  ghost predicate Shifted(before: Fields, prefix: string, position: nat, after: Fields) {
    && (forall k :: k in before && !Touched(prefix, position, k) ==> Get(after, k) == Some(before[k]))
    && (forall k :: k in before && Moves(prefix, position, k) ==> MovedTo(prefix, k) in after)
    && (forall x :: x in after ==>
          || (x in before && !Touched(prefix, position, x))
          || (exists k :: k in before && Moves(prefix, position, k) && MovedTo(prefix, k) == x && before[k] == after[x]))
  }

  lemma MovedIsTouched(prefix: string, position: nat, key: string)
    requires Moves(prefix, position, key)
    ensures Parse(prefix, MovedTo(prefix, key)) ==
            Some(Parsed(Parse(prefix, key).value.position - 1, Parse(prefix, key).value.tail))
    ensures Touched(prefix, position, MovedTo(prefix, key))
  {
    var p := Parse(prefix, key).value;
    RenameParses(prefix, p.(position := p.position - 1));
  }

  /** Two moved keys land on one name exactly when they name the same handler, however spelled. */
  lemma CollideIff(prefix: string, position: nat, k: string, l: string)
    requires Moves(prefix, position, k) && Moves(prefix, position, l)
    ensures MovedTo(prefix, k) == MovedTo(prefix, l) <==> Parse(prefix, k) == Parse(prefix, l)
  {
    MovedIsTouched(prefix, position, k);
    MovedIsTouched(prefix, position, l);
  }

  /** The keys taken out so far, and where the moved ones among them are to go. */
  ghost predicate TakenOut(before: Fields, prefix: string, position: nat, todo: set<string>, left: Fields,
                           moved: seq<(string, Json)>)
  {
    && (forall k :: k in before && (k in todo || !Touched(prefix, position, k)) ==> Get(left, k) == Some(before[k]))
    && (forall k :: k in left ==> k in before && (k in todo || !Touched(prefix, position, k)))
    && (forall k :: k in before && k !in todo && Moves(prefix, position, k) ==>
          exists m :: m in moved && m.0 == MovedTo(prefix, k))
    && (forall m :: m in moved ==>
          exists k :: k in before && Moves(prefix, position, k) && MovedTo(prefix, k) == m.0 && before[k] == m.1)
  }

  /** Take the touched keys out first: moved in place, one could land on another not yet moved. */
  method TakeTouched(before: Fields, prefix: string, position: nat)
    returns (disabled: Fields, moved: seq<(string, Json)>)
    ensures TakenOut(before, prefix, position, {}, disabled, moved)
  {
    var todo := set key | key in before && prefix <= key;
    disabled, moved := before, [];
    while todo != {}
      invariant todo <= before.Keys
      invariant TakenOut(before, prefix, position, todo, disabled, moved)
      decreases todo
    {
      var key :| key in todo;
      ghost var was, wasMoved := disabled, moved;
      var found := Parse(prefix, key);
      if found.Some? && found.value.position >= position {
        var value := disabled[key];
        disabled := disabled - {key};
        if found.value.position > position {
          moved := moved + [(MovedTo(prefix, key), value)];
        }
      }
      TakeOut(before, prefix, position, todo, was, wasMoved, key, disabled, moved);
      todo := todo - {key};
    }
  }

  method PutBack(disabled: Fields, moved: seq<(string, Json)>) returns (after: Fields)
    ensures after == Extended(disabled, moved)
  {
    after := disabled;
    for i := 0 to |moved|
      invariant after == Extended(disabled, moved[..i])
    {
      assert moved[..i + 1][..i] == moved[..i];
      after := after[moved[i].0 := moved[i].1];
    }
    assert moved[..|moved|] == moved;
  }

  /** Renumber the switches of one map; its keys may come in any order. */
  method ShiftDisabled(before: Fields, source: string, event: string, position: nat) returns (after: Fields)
    ensures Shifted(before, Prefix(source, event), position, after)
  {
    var disabled, moved := TakeTouched(before, Prefix(source, event), position);
    after := PutBack(disabled, moved);
    ExtendedIsShifted(before, Prefix(source, event), position, disabled, moved);
  }

  /** The moved keys put back; a later one of the same name replaces an earlier one. */
  function Extended(left: Fields, moved: seq<(string, Json)>): Fields {
    if moved == [] then left
    else
      var last := moved[|moved| - 1];
      Extended(left, moved[..|moved| - 1])[last.0 := last.1]
  }

  lemma {:induction false} ExtendedHolds(left: Fields, moved: seq<(string, Json)>, x: string)
    ensures x in Extended(left, moved) <==> x in left || exists m :: m in moved && m.0 == x
    ensures x in Extended(left, moved) ==>
              Get(left, x) == Some(Extended(left, moved)[x]) || (x, Extended(left, moved)[x]) in moved
    ensures (forall m :: m in moved ==> m.0 != x) ==> Get(Extended(left, moved), x) == Get(left, x)
  {
    if moved == [] {
    } else {
      var rest := moved[..|moved| - 1];
      ExtendedHolds(left, rest, x);
      assert moved == rest + [moved[|moved| - 1]];
    }
  }

  lemma TakeOut(before: Fields, prefix: string, position: nat, todo: set<string>, left: Fields,
                moved: seq<(string, Json)>, key: string, left': Fields, moved': seq<(string, Json)>)
    requires TakenOut(before, prefix, position, todo, left, moved) && key in todo && key in before
    requires left' == if Touched(prefix, position, key) then left - {key} else left
    requires moved' == if Moves(prefix, position, key) then moved + [(MovedTo(prefix, key), before[key])] else moved
    ensures TakenOut(before, prefix, position, todo - {key}, left', moved')
  {
    forall k | k in before && k !in todo - {key} && Moves(prefix, position, k)
      ensures exists m :: m in moved' && m.0 == MovedTo(prefix, k)
    {
      if k == key {
        assert (MovedTo(prefix, key), before[key]) in moved';
      } else {
        var m :| m in moved && m.0 == MovedTo(prefix, k);
        assert m in moved';
      }
    }
  }

  lemma ExtendedIsShifted(before: Fields, prefix: string, position: nat, left: Fields, moved: seq<(string, Json)>)
    requires TakenOut(before, prefix, position, {}, left, moved)
    ensures Shifted(before, prefix, position, Extended(left, moved))
  {
    var after := Extended(left, moved);
    forall k | k in before && !Touched(prefix, position, k)
      ensures Get(after, k) == Some(before[k])
    {
      ExtendedHolds(left, moved, k);
      if m :| m in moved && m.0 == k {
        var l :| l in before && Moves(prefix, position, l) && MovedTo(prefix, l) == m.0 && before[l] == m.1;
        MovedIsTouched(prefix, position, l);
      }
    }
    forall k | k in before && Moves(prefix, position, k)
      ensures MovedTo(prefix, k) in after
    {
      ExtendedHolds(left, moved, MovedTo(prefix, k));
    }
    forall x | x in after
      ensures || (x in before && !Touched(prefix, position, x))
              || (exists k :: k in before && Moves(prefix, position, k) && MovedTo(prefix, k) == x && before[k] == after[x])
    {
      ExtendedHolds(left, moved, x);
    }
  }

  // -- Removing the entry ----------------------------------------------------

  /** The entries a guard file lists under an event. */
  function Entries(guard: Fields, event: string): Option<seq<Json>> {
    var v := Read(guard, ["hooks", event]);
    if v.Some? && v.value.Array? then Some(v.value.items) else None
  }

  function Without<T>(s: seq<T>, i: nat): seq<T>
    requires i < |s|
  {
    s[..i] + s[i + 1..]
  }

  lemma ReadEntries(guard: Fields)
    ensures forall event :: Entries(guard, event) ==
              if "hooks" in guard && guard["hooks"].Object? && event in guard["hooks"].fields
                 && guard["hooks"].fields[event].Array?
              then Some(guard["hooks"].fields[event].items) else None
  {
    forall event
      ensures Read(guard, ["hooks", event]) ==
              if "hooks" in guard && guard["hooks"].Object? && event in guard["hooks"].fields
              then Some(guard["hooks"].fields[event]) else None
    {
      var path := ["hooks", event];
      assert path[1..] == [event];
      assert [event][1..] == [];
      if "hooks" in guard {
        assert Read(guard, path) == At(guard["hooks"], [event]);
        assert At(guard["hooks"], [event]) ==
               if guard["hooks"].Object? && event in guard["hooks"].fields
               then At(guard["hooks"].fields[event], []) else None;
      }
    }
  }

  /** A new value for an event, by the laws of the file's edits. */
  lemma EventSet(guard: Fields, event: string, v: Json)
    requires "hooks" in guard && guard["hooks"].Object?
    ensures var after := guard["hooks" := Object(guard["hooks"].fields[event := v])];
            && Read(after, ["hooks", event]) == Some(v)
            && forall q :: !Comparable(["hooks", event], q) ==> Read(after, q) == Read(guard, q)
  {
    var path := ["hooks"];
    assert path[1..] == [];
    assert path + [event] + [] == path + [event] == ["hooks", event];
    assert Set(guard, path, event, v) == Some(guard["hooks" := Object(guard["hooks"].fields[event := v])]);
    SetReadsBack(guard, path, event, v, []);
    forall q | !Comparable(["hooks", event], q)
      ensures Read(Set(guard, path, event, v).value, q) == Read(guard, q)
    {
      SetKeepsOthers(guard, path, event, v, q);
    }
  }

  lemma EventDropped(guard: Fields, event: string)
    requires "hooks" in guard && guard["hooks"].Object?
    ensures var after := guard["hooks" := Object(guard["hooks"].fields - {event})];
            && !Contains(after, ["hooks", event])
            && forall q :: !Comparable(["hooks", event], q) ==> Read(after, q) == Read(guard, q)
  {
    var path := ["hooks", event];
    assert path[1..] == [event];
    assert Remove(guard["hooks"].fields, [event]) == guard["hooks"].fields - {event};
    assert Remove(guard, path) == guard["hooks" := Object(guard["hooks"].fields - {event})];
    forall q | !Comparable(path, q)
      ensures Read(Remove(guard, path), q) == Read(guard, q)
    {
      RemoveReads(guard, path, q);
    }
    RemoveReads(guard, path, []);
  }

  /** The parsed guard file. */
  class GuardFile {
    var fields: Fields

    constructor (fields: Fields)
      ensures this.fields == fields
    {
      this.fields := fields;
    }

    method RemoveHook(event: string, position: nat) returns (ok: bool)
      modifies this
      ensures !ok ==> fields == old(fields)
      ensures ok <==> Entries(old(fields), event).Some? && position < |Entries(old(fields), event).value|
      ensures ok ==>
                var rest := Without(Entries(old(fields), event).value, position);
                && (Contains(fields, ["hooks", event]) <==> rest != [])
                && (rest != [] ==> Entries(fields, event) == Some(rest))
      ensures ok ==> forall q :: !Comparable(["hooks", event], q) ==> Read(fields, q) == Read(old(fields), q)
    {
      ReadEntries(fields);
      if "hooks" !in fields || !fields["hooks"].Object? {
        return false;
      }
      var hooks := fields["hooks"].fields;
      if event !in hooks || !hooks[event].Array? || position >= |hooks[event].items| {
        return false;
      }
      var entries := Without(hooks[event].items, position);
      if entries == [] {
        EventDropped(fields, event);
        hooks := hooks - {event};
      } else {
        EventSet(fields, event, Array(entries));
        hooks := hooks[event := Array(entries)];
      }
      fields := fields["hooks" := Object(hooks)];
      return true;
    }
  }

  // -- The switched-off hooks stay off ---------------------------------------

  /** Every touched key is spelled the way the engine spells it. */
  predicate Spelled(m: Fields, prefix: string, position: nat) {
    forall k :: k in m && Touched(prefix, position, k) ==> k == Rename(prefix, Parse(prefix, k).value)
  }

  /** Where the entry now at `i` was before the entry at `position` went. */
  function Was(i: nat, position: nat): nat {
    if i < position then i else i + 1
  }

  lemma NamedKey(m: Fields, prefix: string, position: nat, p: Parsed)
    requires Spelled(m, prefix, position) && position <= p.position <= USIZE_MAX
    ensures forall k :: k in m && Parse(prefix, k) == Some(p) ==> k == Rename(prefix, p)
    ensures Parse(prefix, Rename(prefix, p)) == Some(p)
  {
    RenameParses(prefix, p);
  }

  lemma UntouchedKept(before: Fields, prefix: string, position: nat, after: Fields, x: string)
    requires Shifted(before, prefix, position, after) && !Touched(prefix, position, x)
    ensures Get(after, x) == Get(before, x)
  {
    if x in after && x !in before {
      var k :| k in before && Moves(prefix, position, k) && MovedTo(prefix, k) == x && before[k] == after[x];
      MovedIsTouched(prefix, position, k);
    }
  }

  lemma MovedFollows(before: Fields, prefix: string, position: nat, after: Fields, p: Parsed)
    requires Shifted(before, prefix, position, after) && Spelled(before, prefix, position)
    requires position < p.position <= USIZE_MAX
    ensures Get(after, Rename(prefix, p.(position := p.position - 1))) == Get(before, Rename(prefix, p))
  {
    var was, name := Rename(prefix, p), Rename(prefix, p.(position := p.position - 1));
    NamedKey(before, prefix, position, p);
    assert MovedTo(prefix, was) == name;
    MovedIsTouched(prefix, position, was);
    if name in after {
      var k :| k in before && Moves(prefix, position, k) && MovedTo(prefix, k) == name && before[k] == after[name];
      CollideIff(prefix, position, k, was);
    }
  }

  /** Every name the engine could use holds what the same hook's name held before. */
  lemma NamesFollowHooks(before: Fields, prefix: string, position: nat, after: Fields, i: nat, tail: string)
    requires Shifted(before, prefix, position, after) && Spelled(before, prefix, position) && i < USIZE_MAX
    ensures Get(after, Rename(prefix, Parsed(i, tail))) == Get(before, Rename(prefix, Parsed(Was(i, position), tail)))
  {
    if i < position {
      RenameParses(prefix, Parsed(i, tail));
      UntouchedKept(before, prefix, position, after, Rename(prefix, Parsed(i, tail)));
    } else {
      MovedFollows(before, prefix, position, after, Parsed(i + 1, tail));
    }
  }

  /**
   Removing the entry at `position` and renumbering keeps the same hooks off: each entry
   left is an entry there was, and each of its handlers is switched off, with the same
   value, exactly when it was before.
   */
  lemma SwitchedOffHooksStayOff(
      entries: seq<Json>, before: Fields, source: string, event: string, position: nat, after: Fields,
      i: nat, handler: nat)
    requires position < |entries| <= USIZE_MAX && i < |entries| - 1
    requires Shifted(before, Prefix(source, event), position, after) && Spelled(before, Prefix(source, event), position)
    ensures Was(i, position) < |entries| && Without(entries, position)[i] == entries[Was(i, position)]
    ensures Get(after, Declaration(source, event, i, handler)) ==
            Get(before, Declaration(source, event, Was(i, position), handler))
  {
    DeclarationIsName(source, event, i, handler);
    DeclarationIsName(source, event, Was(i, position), handler);
    NamesFollowHooks(before, Prefix(source, event), position, after, i, "." + Dec(handler));
  }

  lemma DeclarationIsName(source: string, event: string, position: nat, handler: nat)
    ensures Declaration(source, event, position, handler) ==
            Rename(Prefix(source, event), Parsed(position, "." + Dec(handler)))
  {
    assert "]." == "]" + ".";
  }

  /** The keys the engine itself gives are spelled so. */
  lemma DeclaredAreSpelled(m: Fields, source: string, event: string, position: nat)
    requires forall k :: k in m && Touched(Prefix(source, event), position, k) ==>
               exists i: nat, handler: nat :: i <= USIZE_MAX && k == Declaration(source, event, i, handler)
    ensures Spelled(m, Prefix(source, event), position)
  {
    var prefix := Prefix(source, event);
    forall k | k in m && Touched(prefix, position, k)
      ensures k == Rename(prefix, Parse(prefix, k).value)
    {
      var i: nat, handler: nat :| i <= USIZE_MAX && k == Declaration(source, event, i, handler);
      DeclarationIsName(source, event, i, handler);
      RenameParses(prefix, Parsed(i, "." + Dec(handler)));
    }
  }

  /** The last position's keys go with the renumbering: nothing is left past the end. */
  lemma NothingLeftPastTheEnd(before: Fields, source: string, event: string, position: nat, after: Fields,
                              count: nat, handler: nat)
    requires position < count < USIZE_MAX
    requires Shifted(before, Prefix(source, event), position, after) && Spelled(before, Prefix(source, event), position)
    requires Declaration(source, event, count, handler) !in before
    ensures Declaration(source, event, count - 1, handler) !in after
  {
    DeclarationIsName(source, event, count, handler);
    DeclarationIsName(source, event, count - 1, handler);
    NamesFollowHooks(before, Prefix(source, event), position, after, count - 1, "." + Dec(handler));
  }

  // -- Other hooks -----------------------------------------------------------

  /** An event name as the engine knows them: letters only, so none of the marks of a key. */
  predicate PlainEvent(event: string) {
    '#' !in event && '[' !in event
  }

  /** Every event there are hooks for is named so. */
  lemma EventsArePlain(event: string)
    requires event in ["SessionStart", "UserPromptSubmit", "PreToolUse", "PostToolUse", "PostToolUseFailure",
                       "PreCompact", "Stop", "SessionEnd"]
    ensures PlainEvent(event)
  {
  }

  /**
   A key of another source or event does not even begin like the removed entry's, unless
   that source's own path does.
   */
  lemma OtherKeysApart(source: string, event: string, source': string, event': string, i: nat, handler: nat)
    requires PlainEvent(event) && PlainEvent(event') && (source, event) != (source', event')
    requires !(Prefix(source, event) <= source')
    ensures !(Prefix(source, event) <= Declaration(source', event', i, handler))
  {
    var prefix, key := Prefix(source, event), Declaration(source', event', i, handler);
    if prefix <= key {
      var n := |prefix| - 1;
      assert prefix[n] == '[' == key[n];
      DecParses(i);
      DecParses(handler);
      var mark := |source'| + 1 + |event'|;
      KeyShape(source', event', i, handler);
      Nested(prefix, source', key);
      assert n == mark;
      assert prefix == key[..mark + 1] == Prefix(source', event');
      SamePrefix(source, event, source', event');
    }
  }

  lemma Nested(a: string, b: string, s: string)
    requires a <= s && b <= s && !(a <= b)
    ensures |b| < |a|
  {
    assert s[..|a|] == a && s[..|b|] == b;
  }

  /** Past the source, a key's only `[` is the one after the event. */
  lemma KeyShape(source: string, event: string, i: nat, handler: nat)
    requires PlainEvent(event)
    ensures var key := Declaration(source, event, i, handler);
            var mark := |source| + 1 + |event|;
            && mark < |key| && key[..|source|] == source && key[..mark + 1] == Prefix(source, event)
            && forall j :: |source| <= j < |key| && key[j] == '[' ==> j == mark
  {
    DecParses(i);
    DecParses(handler);
    var key := Declaration(source, event, i, handler);
    var rest := Dec(i) + "]." + Dec(handler);
    assert key == source + "#" + event + "[" + rest;
    assert '[' !in rest;
    assert forall j :: |Prefix(source, event)| <= j < |key| ==> key[j] in rest;
    assert forall j :: |source| < j <= |source| + |event| ==> key[j] in event;
  }

  lemma SamePrefix(source: string, event: string, source': string, event': string)
    requires PlainEvent(event) && PlainEvent(event') && Prefix(source, event) == Prefix(source', event')
    ensures (source, event) == (source', event')
  {
    var s, s' := Prefix(source, event), Prefix(source', event');
    assert s[|source|] == '#' && s'[|source'|] == '#';
    assert forall j :: |source| < j < |s| - 1 ==> s[j] == event[j - |source| - 1];
    assert forall j :: |source'| < j < |s'| - 1 ==> s'[j] == event'[j - |source'| - 1];
    assert |source| == |source'|;
    assert source == s[..|source|] == source';
    assert event == s[|source| + 1..|s| - 1] == event';
  }

  /** A source whose path takes over a key's part up to its `]`: it is read as a key of its own. */
  lemma TouchedBySource(prefix: string, position: nat, source': string, rest: string)
    requires prefix <= source' && rest != [] && rest[0] == '#'
    ensures Touched(prefix, position, source' + rest) <==>
            Touched(prefix, position, source')
  {
    var path := source'[|prefix|..];
    var key := source' + rest;
    assert key[|prefix|..] == path + rest;
    FindJoin(path, rest, ']');
    var close := Find(path, ']');
    if close < |path| {
      assert (path + rest)[..close] == path[..close];
    } else {
      var shut := Find(path + rest, ']');
      if shut < |path + rest| {
        assert (path + rest)[..shut][|path|] == '#';
        MarkedNoNumber((path + rest)[..shut], |path|);
      }
    }
  }

  lemma {:induction false} FindJoin(a: string, b: string, c: char)
    ensures Find(a + b, c) == if Find(a, c) < |a| then Find(a, c) else |a| + Find(b, c)
  {
    if a == [] {
      assert a + b == b;
    } else {
      assert (a + b)[1..] == a[1..] + b;
      FindJoin(a[1..], b, c);
    }
  }

  /** A text with a `#` inside is no number. */
  lemma MarkedNoNumber(s: string, i: nat)
    requires i < |s| && s[i] == '#'
    ensures ParseUsize(s).None?
  {
    var digits := if s[0] == '+' then s[1..] else s;
    assert '#' in digits by {
      assert s[0] == '+' ==> digits[i - 1] == '#';
    }
    assert !IsDigit('#');
  }

  /**
   A switch of another source or event is touched exactly when that source's own path, up
   to its first `]`, reads as a key of the removed entry or a later one.
   */
  lemma OtherKeyTouchedIff(source: string, event: string, position: nat,
                           source': string, event': string, i: nat, handler: nat)
    requires PlainEvent(event) && PlainEvent(event') && (source, event) != (source', event')
    ensures Touched(Prefix(source, event), position, Declaration(source', event', i, handler)) <==>
            Touched(Prefix(source, event), position, source')
  {
    var prefix := Prefix(source, event);
    if prefix <= source' {
      var rest := "#" + event' + "[" + Dec(i) + "]." + Dec(handler);
      assert Declaration(source', event', i, handler) == source' + rest;
      TouchedBySource(prefix, position, source', rest);
    } else {
      OtherKeysApart(source, event, source', event', i, handler);
    }
  }

  /** A touched key standing alone is gone after the renumbering. */
  lemma TouchedAlone(prefix: string, position: nat, key: string, value: Json) returns (before: Fields, after: Fields)
    requires Touched(prefix, position, key)
    ensures Shifted(before, prefix, position, after) && Get(before, key) == Some(value) && Get(after, key) == None
  {
    before := map[key := value];
    if Moves(prefix, position, key) {
      MovedIsTouched(prefix, position, key);
      after := map[MovedTo(prefix, key) := value];
    } else {
      after := map[];
    }
  }

  /**
   A hook of another source or event keeps its switch, on or off, through every renumbering
   exactly when its source's own path does not read as a key of the removed entry or a
   later one. A directory named `source#event[n]`, with `n` at least the position removed,
   is what it takes to lose it.
   */
  lemma OtherSwitchKeptIff(source: string, event: string, position: nat,
                           source': string, event': string, i: nat, handler: nat)
    requires PlainEvent(event) && PlainEvent(event') && (source, event) != (source', event')
    ensures (forall before, after :: Shifted(before, Prefix(source, event), position, after) ==>
               Get(after, Declaration(source', event', i, handler)) ==
               Get(before, Declaration(source', event', i, handler))) <==>
            !Touched(Prefix(source, event), position, source')
  {
    var prefix, key := Prefix(source, event), Declaration(source', event', i, handler);
    OtherKeyTouchedIff(source, event, position, source', event', i, handler);
    if Touched(prefix, position, source') {
      var before, after := TouchedAlone(prefix, position, key, Bool(true));
    } else {
      forall before, after | Shifted(before, prefix, position, after)
        ensures Get(after, key) == Get(before, key)
      {
        UntouchedKept(before, prefix, position, after, key);
      }
    }
  }

  /** Switches of other sources and events are left alone. */
  lemma OtherSwitchesUntouched(
      before: Fields, source: string, event: string, position: nat, after: Fields,
      source': string, event': string, i: nat, handler: nat)
    requires Shifted(before, Prefix(source, event), position, after)
    requires PlainEvent(event) && PlainEvent(event') && (source, event) != (source', event')
    requires !Touched(Prefix(source, event), position, source')
    ensures Get(after, Declaration(source', event', i, handler)) == Get(before, Declaration(source', event', i, handler))
  {
    OtherSwitchKeptIff(source, event, position, source', event', i, handler);
  }

  /**
   The other case, spelled out: a hook in a directory named after a key of a position at or
   past the one removed loses its own switch.
   */
  lemma DirectoryNamedLikeAKey(
      source: string, event: string, position: nat, n: nat, directory: string,
      event': string, i: nat, handler: nat, value: Json) returns (before: Fields, after: Fields)
    requires position <= n <= USIZE_MAX && PlainEvent(event) && PlainEvent(event')
    ensures var source' := Prefix(source, event) + Dec(n) + "]" + directory;
            && Touched(Prefix(source, event), position, source')
            && Shifted(before, Prefix(source, event), position, after)
            && Get(before, Declaration(source', event', i, handler)) == Some(value)
            && Get(after, Declaration(source', event', i, handler)) == None
  {
    var prefix := Prefix(source, event);
    var source' := prefix + Dec(n) + "]" + directory;
    assert source' == Rename(prefix, Parsed(n, directory));
    RenameParses(prefix, Parsed(n, directory));
    assert |source'| > |source|;
    OtherKeyTouchedIff(source, event, position, source', event', i, handler);
    before, after := TouchedAlone(prefix, position, Declaration(source', event', i, handler), value);
  }
}
