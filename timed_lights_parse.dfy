/** `TimedLightAutomationMaker.parse` of timed_lights.py: a text of rules,
    one per line, read top to bottom. A comment starts at `#`; an
    `events=` line replaces the events every later rule is re-evaluated
    on; a rule line `alias, on, off, entity|entity|..., [restrict]` is
    expanded with `get_automations`; any other line is skipped. */
module TimedLightsParse {
  import opened Base
  import opened Text
  import Automations
  import opened TimedLights

  /** `line.split('#', 1)[0].strip()`: the line without its comment and
      without surrounding white space. */
  function Clean(raw: string): (line: string)
    ensures '#' !in line
    ensures '#' !in raw ==> line == Strip(raw)
  {
    var piece := Split(raw, '#')[0];
    var line := Strip(piece);
    assert forall i :: 0 <= i < |line| ==> line[i] in piece;
    if '#' in raw then line
    else SplitNoSep(raw, '#'); line
  }

  /** What the loop body of `parse` makes of one line. */
  datatype LineKind =
    | Blank                              // empty once cleaned: skipped
    | EventsLine(events: seq<string>)    // `events=a, b, ...`
    | Short                              // fewer than four fields: skipped
    | RuleLine(parts: seq<string>)       // a timed-light rule

  /** The regular expression `^events=(.*)$` matches a cleaned line exactly
      when it starts with `events=`, since the line holds no newline; the
      events are the stripped comma-separated pieces of the rest. */
  function Classify(raw: string): (k: LineKind)
    ensures k.RuleLine? ==> |k.parts| >= 4
    ensures k.Blank? <==> Clean(raw) == ""
    ensures k.EventsLine? <==> Clean(raw) != "" && StartsWith(Clean(raw), "events=")
    ensures k.EventsLine? ==> k.events == StripAll(Split(Clean(raw)[7..], ','))
    ensures k.Short? <==>
      Clean(raw) != "" && !StartsWith(Clean(raw), "events=") && |Split(Clean(raw), ',')| < 4
    ensures k.RuleLine? ==> k.parts == StripAll(Split(Clean(raw), ','))
  {
    var line := Clean(raw);
    if line == "" then Blank
    else if StartsWith(line, "events=") then EventsLine(StripAll(Split(line[7..], ',')))
    else
      var parts := StripAll(Split(line, ','));
      if |parts| < 4 then Short else RuleLine(parts)
  }

  /** The keyword arguments `parse` passes to `get_automations` for a rule
      line: the entities are the `|`-separated pieces of the fourth field,
      the restricting entity the fifth field when there is one. */
  function RuleRequest(parts: seq<string>, events: seq<string>): (req: Request)
    requires |parts| >= 4
    ensures req.alias == Some(parts[0]) && req.on == parts[1] && req.off == parts[2]
    ensures req.entities == Split(parts[3], '|') && req.entities != []
    ensures req.restrict == (if |parts| >= 5 then Some(parts[4]) else None)
    ensures req.events == events
  {
    Request(Some(parts[0]), parts[1], parts[2], Split(parts[3], '|'), None,
            if |parts| >= 5 then Some(parts[4]) else None, events)
  }

  /** The variables of the loop of `parse` (`tls` and `events`), with an
      exception raised by `get_automations` recorded in place of `tls`. */
  datatype ParseState = ParseState(result: Result<seq<Automations.Automation>>, events: seq<string>)

  /** The loop is stated for any function in the place of `get_automations`
      (`Expand`), so that its properties are proved once for all. */
  type Expander = Request -> Result<seq<Automations.Automation>>

  /** The kind of every line, in order. */
  function Kinds(lines: seq<string>): (kinds: seq<LineKind>)
    ensures |kinds| == |lines| && forall i :: 0 <= i < |lines| ==> kinds[i] == Classify(lines[i])
  {
    seq(|lines|, i requires 0 <= i < |lines| => Classify(lines[i]))
  }

  /** One round of the loop, for a line of kind `kind`. Once an exception
      is raised nothing more is read. */
  function Step(st: ParseState, kind: LineKind, expand: Expander): ParseState
  {
    if st.result.Err? then st
    else
      match kind
      case Blank => st
      case Short => st
      case EventsLine(events) => ParseState(st.result, events)
      case RuleLine(parts) =>
        if |parts| < 4 then st
        else
          match expand(RuleRequest(parts, st.events))
          case Err(e) => ParseState(Err(e), st.events)
          case Ok(made) => ParseState(Ok(st.result.value + made), st.events)
  }

  /** The loop over the lines, as a left fold over their kinds. */
  function ParseKinds(kinds: seq<LineKind>, expand: Expander): ParseState
  {
    if kinds == [] then ParseState(Ok([]), [])
    else Step(ParseKinds(kinds[..|kinds| - 1], expand), kinds[|kinds| - 1], expand)
  }

  /** What `parse(configs_text)` returns or raises. */
  function Parse(configsText: string): Result<seq<Automations.Automation>>
  {
    ParseKinds(Kinds(Split(configsText, '\n')), Expand).result
  }

  /** The events in force after lines of kinds `kinds`: those of the last
      `events=` line, none before the first. */
  function LastEvents(kinds: seq<LineKind>): seq<string>
  {
    if kinds == [] then []
    else if kinds[|kinds| - 1].EventsLine? then kinds[|kinds| - 1].events
    else LastEvents(kinds[..|kinds| - 1])
  }

  /** What `get_automations` makes of a line of kind `kind` when `events`
      are in force: its automations for a rule line, nothing for any other
      line. */
  function LineResult(kind: LineKind, events: seq<string>, expand: Expander): Result<seq<Automations.Automation>>
  {
    if kind.RuleLine? && |kind.parts| >= 4 then expand(RuleRequest(kind.parts, events)) else Ok([])
  }

  /** The automations of line `i`, read with the events the lines before it
      set. */
  function LineAutomations(kinds: seq<LineKind>, i: nat, expand: Expander): seq<Automations.Automation>
    requires i < |kinds|
  {
    var r := LineResult(kinds[i], LastEvents(kinds[..i]), expand);
    if r.Ok? then r.value else []
  }

  /** The automations of every line, line by line. */
  function AllLineAutomations(kinds: seq<LineKind>, expand: Expander): (r: seq<seq<Automations.Automation>>)
    ensures |r| == |kinds| && forall i :: 0 <= i < |kinds| ==> r[i] == LineAutomations(kinds, i, expand)
  {
    seq(|kinds|, i requires 0 <= i < |kinds| => LineAutomations(kinds, i, expand))
  }

  /** Every line before `n` is read without an exception. */
  predicate LinesOk(kinds: seq<LineKind>, n: nat, expand: Expander)
    requires n <= |kinds|
  {
    forall i :: 0 <= i < n ==> LineResult(kinds[i], LastEvents(kinds[..i]), expand).Ok?
  }

  /** Lines read after an exception change nothing: the exception is what
      `parse` raises. */
  lemma {:induction false} ErrorSticky(kinds: seq<LineKind>, more: seq<LineKind>, expand: Expander)
    requires ParseKinds(kinds, expand).result.Err?
    ensures ParseKinds(kinds + more, expand) == ParseKinds(kinds, expand)
    decreases |more|
  {
    if more == [] {
      assert kinds + more == kinds;
    } else {
      var n := |more| - 1;
      assert (kinds + more)[..|kinds + more| - 1] == kinds + more[..n];
      ErrorSticky(kinds, more[..n], expand);
    }
  }

  /** One more line is one more round of the loop. */
  lemma ParseKindsSnoc(kinds: seq<LineKind>, i: nat, expand: Expander)
    requires i < |kinds|
    ensures ParseKinds(kinds[..i + 1], expand) == Step(ParseKinds(kinds[..i], expand), kinds[i], expand)
  {
    assert kinds[..i + 1][..i] == kinds[..i];
  }

  /** An exception on line `n - 1` is what the whole loop raises. */
  lemma ErrorEnds(kinds: seq<LineKind>, n: nat, expand: Expander)
    requires n <= |kinds|
    requires ParseKinds(kinds[..n], expand).result.Err?
    ensures ParseKinds(kinds, expand) == ParseKinds(kinds[..n], expand)
  {
    ErrorSticky(kinds[..n], kinds[n..], expand);
    assert kinds[..n] + kinds[n..] == kinds;
  }

  /** While no exception is raised, the loop keeps the events of the last
      `events=` line, and `tls` holds, in order, the automations of every
      line read so far; it raises exactly when some line's
      `get_automations` raises. */
  lemma {:induction false} ParseKindsMeaning(kinds: seq<LineKind>, expand: Expander)
    ensures ParseKinds(kinds, expand).result.Ok? <==> LinesOk(kinds, |kinds|, expand)
    ensures ParseKinds(kinds, expand).result.Ok? ==> ParseKinds(kinds, expand).events == LastEvents(kinds)
    ensures ParseKinds(kinds, expand).result.Ok? ==>
      ParseKinds(kinds, expand).result.value == Concat(AllLineAutomations(kinds, expand))
  {
    if kinds != [] {
      var n := |kinds| - 1;
      var init := kinds[..n];
      ParseKindsMeaning(init, expand);
      AllLinePrefix(kinds, n, expand);
      LinesOkPrefix(kinds, n, expand);
      if ParseKinds(init, expand).result.Ok? {
        StepMeaning(ParseKinds(init, expand), kinds[n], expand);
      }
    }
  }

  lemma AllLinePrefix(kinds: seq<LineKind>, n: nat, expand: Expander)
    requires n <= |kinds|
    ensures AllLineAutomations(kinds, expand)[..n] == AllLineAutomations(kinds[..n], expand)
  {
    var blocks := AllLineAutomations(kinds, expand);
    forall i | 0 <= i < n
      ensures blocks[..n][i] == AllLineAutomations(kinds[..n], expand)[i]
    {
      assert kinds[..i] == kinds[..n][..i];
    }
  }

  lemma LinesOkPrefix(kinds: seq<LineKind>, n: nat, expand: Expander)
    requires n < |kinds|
    ensures LinesOk(kinds, n + 1, expand) <==>
      LinesOk(kinds[..n], n, expand) && LineResult(kinds[n], LastEvents(kinds[..n]), expand).Ok?
  {
    assert forall i :: 0 <= i < n ==> kinds[i] == kinds[..n][i] && kinds[..i] == kinds[..n][..i];
  }

  /** One round of the loop, from a state without an exception: the line's
      result is appended, and an `events=` line replaces the events. */
  lemma StepMeaning(st: ParseState, kind: LineKind, expand: Expander)
    requires st.result.Ok?
    ensures Step(st, kind, expand).result.Ok? <==> LineResult(kind, st.events, expand).Ok?
    ensures Step(st, kind, expand).result.Ok? ==>
      Step(st, kind, expand).result.value == st.result.value + LineResult(kind, st.events, expand).value
    ensures Step(st, kind, expand).events == (if kind.EventsLine? then kind.events else st.events)
  {
  }

  /** When `get_automations` raises only `AssertionError` on requests that
      name entities, so does the loop. */
  lemma {:induction false} ParseKindsOnlyAssertion(kinds: seq<LineKind>, expand: Expander)
    requires forall req: Request :: req.entities != [] && expand(req).Err? ==> expand(req).error == AssertionError
    ensures ParseKinds(kinds, expand).result.Err? ==> ParseKinds(kinds, expand).result.error == AssertionError
  {
    if kinds != [] {
      ParseKindsOnlyAssertion(kinds[..|kinds| - 1], expand);
    }
  }

  /** `parse` never raises `KeyError`: every rule line has at least one
      entity, so the only exception is the `AssertionError` of a time that
      is neither a clock time nor a sun time. */
  lemma ParseNoKeyError(configsText: string)
    ensures Parse(configsText).Err? ==> Parse(configsText).error == AssertionError
  {
    forall req: Request | req.entities != [] && Expand(req).Err?
      ensures Expand(req).error == AssertionError
    {
      ExpandOutcome(req);
    }
    ParseKindsOnlyAssertion(Kinds(Split(configsText, '\n')), Expand);
  }

  /** A rule line raises exactly when its on or off time is unreadable. */
  lemma RuleLineOutcome(raw: string, events: seq<string>)
    requires Classify(raw).RuleLine?
    ensures LineResult(Classify(raw), events, Expand).Err? <==>
      NotATime(Classify(raw).parts[1]) || NotATime(Classify(raw).parts[2])
  {
    var parts := Classify(raw).parts;
    ExpandOutcome(RuleRequest(parts, events));
  }

  /** A comment changes nothing: whatever follows `#` is ignored. */
  lemma CommentIgnored(raw: string, comment: string)
    requires '#' !in raw
    ensures Clean(raw + "#" + comment) == Strip(raw)
    ensures Classify(raw + "#" + comment) == Classify(raw)
  {
    SplitAfterPiece(raw, comment, '#');
    SplitNoSep(raw, '#');
    assert raw + "#" + comment == raw + ['#'] + comment;
  }

  /** A rule written out as stripped fields joined by `,`, with any
      comment after it, reads back as those fields. */
  lemma RuleLineRoundTrip(fields: seq<string>, comment: string, events: seq<string>, expand: Expander)
    requires |fields| >= 4
    requires forall i :: 0 <= i < |fields| ==> Strip(fields[i]) == fields[i] && ',' !in fields[i] && '#' !in fields[i]
    requires !StartsWith(fields[0], "events=")
    ensures Classify(Join(fields, ',') + "#" + comment) == RuleLine(fields)
    ensures LineResult(Classify(Join(fields, ',') + "#" + comment), events, expand) == expand(RuleRequest(fields, events))
  {
    var line := Join(fields, ',');
    JoinAvoids(fields, ',', '#');
    JoinStripped(fields, ',');
    CommentIgnored(line, comment);
    SplitJoin(fields, ',');
    assert line == fields[0] + [','] + Join(fields[1..], ',');
    NotEventsLine(fields[0], Join(fields[1..], ','));
    ClassifyRule(line + "#" + comment, line);
    StripAllKeeps(fields);
  }

  lemma ClassifyRule(raw: string, line: string)
    requires Clean(raw) == line && line != ""
    requires !StartsWith(line, "events=") && |Split(line, ',')| >= 4
    ensures Classify(raw) == RuleLine(StripAll(Split(line, ',')))
  {
  }

  /** A line whose first field does not start with `events=` does not
      either. */
  lemma NotEventsLine(first: string, rest: string)
    requires ',' !in first
    requires !StartsWith(first, "events=")
    ensures !StartsWith(first + [','] + rest, "events=")
  {
    var s := first + [','] + rest;
    if |first| >= 7 {
      assert s[..7] == first[..7];
    } else {
      assert s[|first|] == ',';
      assert forall k :: 0 <= k < 7 ==> "events="[k] != ',';
    }
  }

  /** `events=` followed by stripped events joined by `,`, with any comment
      after it, reads back as those events. */
  lemma EventsLineRoundTrip(events: seq<string>, comment: string)
    requires |events| >= 1
    requires forall i :: 0 <= i < |events| ==> Strip(events[i]) == events[i] && ',' !in events[i] && '#' !in events[i]
    ensures Classify("events=" + Join(events, ',') + "#" + comment) == EventsLine(events)
  {
    var j := Join(events, ',');
    JoinAvoids(events, ',', '#');
    JoinStripped(events, ',');
    StrippedEnds(j);
    EventsLineClean(j, comment);
    ClassifyEvents("events=" + j + "#" + comment, j);
    SplitJoin(events, ',');
    StripAllKeeps(events);
  }

  lemma EventsLineClean(j: string, comment: string)
    requires '#' !in j && (j == [] || !IsSpace(j[|j| - 1]))
    ensures Clean("events=" + j + "#" + comment) == "events=" + j
  {
    assert '#' !in "events=" + j;
    CommentIgnored("events=" + j, comment);
    EventsPrefixStripped(j);
  }

  lemma EventsPrefixStripped(j: string)
    requires j == [] || !IsSpace(j[|j| - 1])
    ensures Strip("events=" + j) == "events=" + j
  {
    var line := "events=" + j;
    var last := if j == [] then '=' else j[|j| - 1];
    assert line[0] == 'e' && line[|line| - 1] == last;
    StripKeeps(line);
  }

  lemma ClassifyEvents(raw: string, j: string)
    requires Clean(raw) == "events=" + j
    ensures Classify(raw) == EventsLine(StripAll(Split(j, ',')))
  {
    var line := "events=" + j;
    assert line[..7] == "events=" && line[7..] == j;
  }

  /** `parse`: the loop over the lines of the text; an exception of
      `get_automations` ends it. */
  method ParseConfigs(configsText: string) returns (r: Result<seq<Automations.Automation>>)
    ensures r == Parse(configsText)
  {
    var lines := Split(configsText, '\n');
    ghost var kinds := Kinds(lines);
    var tls: seq<Automations.Automation> := [];
    var events: seq<string> := [];
    var i := 0;
    while i < |lines|
      invariant 0 <= i <= |lines|
      invariant ParseKinds(kinds[..i], Expand) == ParseState(Ok(tls), events)
    {
      var kind := ReadLine(lines[i]);
      var st := ReadRound(ParseState(Ok(tls), events), kind);
      ParseKindsSnoc(kinds, i, Expand);
      if st.result.Err? {
        ErrorEnds(kinds, i + 1, Expand);
        return st.result;
      }
      tls, events := st.result.value, st.events;
      i := i + 1;
    }
    assert kinds[..i] == kinds;
    r := Ok(tls);
  }

  /** The body of the loop of `parse` for one line, once read. */
  method ReadRound(st: ParseState, kind: LineKind) returns (next: ParseState)
    requires st.result.Ok?
    ensures next == Step(st, kind, Expand)
  {
    match kind {
      case Blank =>
        next := st;
      case Short =>
        next := st;
      case EventsLine(events) =>
        next := ParseState(st.result, events);
      case RuleLine(parts) =>
        if |parts| < 4 {
          next := st;
        } else {
          var made := GetAutomations(RuleRequest(parts, st.events));
          if made.Err? {
            next := ParseState(Err(made.error), st.events);
          } else {
            next := ParseState(Ok(st.result.value + made.value), st.events);
          }
        }
    }
  }

  /** The loop body's reading of one line: clean it, skip it when empty,
      match `events=`, else split it into stripped fields and skip it when
      there are fewer than four. */
  method ReadLine(raw: string) returns (kind: LineKind)
    ensures kind == Classify(raw)
  {
    var line := Split(raw, '#')[0];
    line := Strip(line);
    if line == "" {
      return Blank;
    }
    if StartsWith(line, "events=") {
      var events := StripAll(Split(line[7..], ','));
      return EventsLine(events);
    }
    var parts := StripAll(Split(line, ','));
    if |parts| < 4 {
      return Short;
    }
    return RuleLine(parts);
  }
}
