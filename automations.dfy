/** automation.py: an automation record and its rendering as the lines of a
    YAML list element, and the dump of a list of automations with numbered
    ids. */
module Automations {
  import opened Base
  import opened Text
  import opened Things
  import Conditions

  datatype Automation = Automation(
    alias: Option<string>,
    triggers: seq<Trigger>,
    conditions: seq<Conditions.Condition>,
    actions: seq<Action>)

  /** `Automation(**kwargs)`: an empty (or missing) `triggers` list falls back
      to `[trigger]`, an empty `conditions` list to `[condition]` when one is
      given, an empty `actions` list to `[action]`; a missing `trigger` or
      `action` that is needed raises `KeyError`. An empty sequence stands for
      both an absent and an empty keyword argument, which the constructor
      treats alike. */
  function NewAutomation(
    alias: Option<string>,
    triggers: seq<Trigger>, trigger: Option<Trigger>,
    conditions: seq<Conditions.Condition>, condition: Option<Conditions.Condition>,
    actions: seq<Action>, action: Option<Action>): (r: Result<Automation>)
    ensures |triggers| == 0 && trigger.None? ==> r == Err(KeyError("trigger"))
    ensures (|triggers| > 0 || trigger.Some?) && |actions| == 0 && action.None? ==> r == Err(KeyError("action"))
    ensures r.Ok? <==> (|triggers| > 0 || trigger.Some?) && (|actions| > 0 || action.Some?)
    ensures r.Ok? ==> r.value.alias == alias
    ensures r.Ok? ==> r.value.triggers == (if |triggers| > 0 then triggers else [trigger.value])
    ensures r.Ok? ==> r.value.actions == (if |actions| > 0 then actions else [action.value])
    ensures r.Ok? ==> (r.value.conditions == [] <==> conditions == [] && condition.None?)
    ensures r.Ok? && conditions != [] ==> r.value.conditions == conditions
    ensures r.Ok? && conditions == [] && condition.Some? ==> r.value.conditions == [condition.value]
  {
    if |triggers| == 0 && trigger.None? then Err(KeyError("trigger"))
    else if |actions| == 0 && action.None? then Err(KeyError("action"))
    else
      Ok(Automation(
        alias,
        if |triggers| > 0 then triggers else [trigger.value],
        if |conditions| > 0 then conditions else if condition.Some? then [condition.value] else [],
        if |actions| > 0 then actions else [action.value]))
  }

  function IdLine(automationId: string): string
  {
    "- id: '" + automationId + "'"
  }

  function AliasLines(alias: Option<string>): seq<string>
  {
    if Truthy(alias) then ["  alias: " + alias.value] else []
  }

  /** The lines each trigger or action prints, in order. */
  function ThingBlocks(things: seq<BasicThing>): (r: seq<seq<string>>)
    ensures |r| == |things| && forall i :: 0 <= i < |things| ==> r[i] == things[i].Output()
  {
    seq(|things|, i requires 0 <= i < |things| => things[i].Output())
  }

  function ConditionSection(conditions: seq<Conditions.Condition>): seq<string>
  {
    if |conditions| > 0 then ["  condition:"] + Concat(Items(Conditions.SubLines(conditions))) else []
  }

  /** The lines `output(automation_id)` returns. */
  function Lines(a: Automation, automationId: string): seq<string>
  {
    [IdLine(automationId)] + AliasLines(a.alias)
    + ["  trigger:"] + Concat(Items(ThingBlocks(a.triggers)))
    + ConditionSection(a.conditions)
    + ["  action:"] + Concat(Items(ThingBlocks(a.actions)))
  }

  /** The number of lines `output` prints, section by section. */
  function LineCount(a: Automation): nat
  {
    2 + (if Truthy(a.alias) then 1 else 0)
    + Sum(Lengths(ThingBlocks(a.triggers)))
    + (if |a.conditions| > 0 then 1 + Sum(Lengths(Conditions.SubLines(a.conditions))) else 0)
    + 1 + Sum(Lengths(ThingBlocks(a.actions)))
  }

  /** The loop of `output` over the triggers (or the actions): each one's
      lines are appended as a list item. */
  method ExtendWithItems(lines: seq<string>, things: seq<BasicThing>) returns (r: seq<string>)
    ensures r == lines + Concat(Items(ThingBlocks(things)))
  {
    ghost var blocks := ThingBlocks(things);
    r := lines;
    var i := 0;
    while i < |things|
      invariant 0 <= i <= |things|
      invariant r == lines + Concat(Items(blocks[..i]))
    {
      ItemsSnoc(blocks, i);
      r := r + Item(things[i].Output());
      i := i + 1;
    }
    assert blocks[..i] == blocks;
  }

  /** The loop of `output` over the conditions. */
  method ExtendWithConditions(lines: seq<string>, conditions: seq<Conditions.Condition>) returns (r: seq<string>)
    ensures r == lines + Concat(Items(Conditions.SubLines(conditions)))
  {
    ghost var blocks := Conditions.SubLines(conditions);
    r := lines;
    var i := 0;
    while i < |conditions|
      invariant 0 <= i <= |conditions|
      invariant r == lines + Concat(Items(blocks[..i]))
    {
      var condLines := Conditions.Output(conditions[i]);
      ItemsSnoc(blocks, i);
      r := r + Item(condLines);
      i := i + 1;
    }
    assert blocks[..i] == blocks;
  }

  /** `Automation.output`. */
  method Output(a: Automation, automationId: string) returns (lines: seq<string>)
    ensures lines == Lines(a, automationId)
    ensures lines[0] == IdLine(automationId)
  {
    lines := [IdLine(automationId)];
    if Truthy(a.alias) {
      lines := lines + ["  alias: " + a.alias.value];
    }
    lines := lines + ["  trigger:"];
    ghost var head := lines;
    assert head == [IdLine(automationId)] + AliasLines(a.alias) + ["  trigger:"];
    lines := ExtendWithItems(lines, a.triggers);
    ghost var triggerPart := lines;
    if |a.conditions| > 0 {
      lines := lines + ["  condition:"];
      lines := ExtendWithConditions(lines, a.conditions);
    }
    assert lines == triggerPart + ConditionSection(a.conditions);
    lines := lines + ["  action:"];
    lines := ExtendWithItems(lines, a.actions);
  }

  function AliasCount(a: Automation): nat
  {
    if Truthy(a.alias) then 1 else 0
  }

  /** Where the trigger items, the condition items and the action items
      start in the output. */
  function TriggerStart(a: Automation): nat
  {
    2 + AliasCount(a)
  }

  function ConditionStart(a: Automation): nat
  {
    TriggerStart(a) + Sum(Lengths(ThingBlocks(a.triggers))) + 1
  }

  function ActionStart(a: Automation): nat
  {
    TriggerStart(a) + Sum(Lengths(ThingBlocks(a.triggers)))
    + (if |a.conditions| > 0 then 1 + Sum(Lengths(Conditions.SubLines(a.conditions))) else 0) + 1
  }

  /** The output, cut at the section boundaries. */
  lemma Sections(a: Automation, automationId: string)
    ensures Lines(a, automationId) ==
      ([IdLine(automationId)] + AliasLines(a.alias) + ["  trigger:"])
      + Concat(Items(ThingBlocks(a.triggers)))
      + (ConditionSection(a.conditions) + ["  action:"] + Concat(Items(ThingBlocks(a.actions))))
    ensures |Concat(Items(ThingBlocks(a.triggers)))| == Sum(Lengths(ThingBlocks(a.triggers)))
    ensures |Concat(Items(ThingBlocks(a.actions)))| == Sum(Lengths(ThingBlocks(a.actions)))
    ensures |ConditionSection(a.conditions)| ==
      (if |a.conditions| > 0 then 1 + Sum(Lengths(Conditions.SubLines(a.conditions))) else 0)
  {
    ItemsLength(ThingBlocks(a.triggers));
    ItemsLength(Conditions.SubLines(a.conditions));
    ItemsLength(ThingBlocks(a.actions));
  }

  /** `output` prints `LineCount(a)` lines, the id line first, the trigger
      header after the optional alias line and the action header right before
      the action items. */
  lemma OutputHeaders(a: Automation, automationId: string)
    ensures |Lines(a, automationId)| == LineCount(a)
    ensures Lines(a, automationId)[0] == IdLine(automationId)
    ensures Lines(a, automationId)[1 + AliasCount(a)] == "  trigger:"
    ensures Lines(a, automationId)[ActionStart(a) - 1] == "  action:"
    ensures ActionStart(a) + Sum(Lengths(ThingBlocks(a.actions))) == LineCount(a)
  {
    Sections(a, automationId);
  }

  /** An alias line is printed exactly when the alias is truthy: second, as
      `  alias: <alias>`; otherwise no line starts like one. */
  lemma OutputAlias(a: Automation, automationId: string)
    ensures Truthy(a.alias) ==> Lines(a, automationId)[1] == "  alias: " + a.alias.value
    ensures !Truthy(a.alias) ==>
              forall line :: line in Lines(a, automationId) ==> !StartsWith(line, "  alias: ")
  {
    Sections(a, automationId);
    if !Truthy(a.alias) {
      ItemsIndented(ThingBlocks(a.triggers));
      ItemsIndented(ThingBlocks(a.actions));
      ItemsIndented(Conditions.SubLines(a.conditions));
      forall line | line in Lines(a, automationId)
        ensures !StartsWith(line, "  alias: ")
      {
        AliasPrefixShape(line);
      }
    }
  }

  /** The condition header is printed exactly when there are conditions. */
  lemma OutputConditionHeader(a: Automation, automationId: string)
    ensures "  condition:" in Lines(a, automationId) <==> |a.conditions| > 0
    ensures |a.conditions| > 0 ==>
              ConditionStart(a) - 1 < |Lines(a, automationId)| &&
              Lines(a, automationId)[ConditionStart(a) - 1] == "  condition:"
  {
    Sections(a, automationId);
    if |a.conditions| == 0 {
      ItemsIndented(ThingBlocks(a.triggers));
      ItemsIndented(ThingBlocks(a.actions));
      ConditionHeaderShape();
    }
  }

  /** Each trigger, condition and action contributes its own lines, in order,
      as a list item inside its section. */
  lemma OutputItems(a: Automation, automationId: string)
    ensures forall k, j :: 0 <= k < |a.triggers| && 0 <= j < |a.triggers[k].args| ==>
              ElementLineAt(Lines(a, automationId), TriggerStart(a), ThingBlocks(a.triggers), k, j)
    ensures forall k, j :: 0 <= k < |a.conditions| && 0 <= j < |Conditions.Lines(a.conditions[k])| ==>
              ElementLineAt(Lines(a, automationId), ConditionStart(a), Conditions.SubLines(a.conditions), k, j)
    ensures forall k, j :: 0 <= k < |a.actions| && 0 <= j < |a.actions[k].args| ==>
              ElementLineAt(Lines(a, automationId), ActionStart(a), ThingBlocks(a.actions), k, j)
  {
    Sections(a, automationId);
    var pre := [IdLine(automationId)] + AliasLines(a.alias) + ["  trigger:"];
    var trig := Concat(Items(ThingBlocks(a.triggers)));
    var cond := ConditionSection(a.conditions);
    var act := Concat(Items(ThingBlocks(a.actions)));
    assert |pre| == TriggerStart(a);
    ItemsLines(pre, ThingBlocks(a.triggers), cond + ["  action:"] + act);
    var beforeActions := pre + trig + cond + ["  action:"];
    assert Lines(a, automationId) == beforeActions + act + [];
    assert |beforeActions| == ActionStart(a);
    ItemsLines(beforeActions, ThingBlocks(a.actions), []);
    if |a.conditions| > 0 {
      var items := Concat(Items(Conditions.SubLines(a.conditions)));
      var beforeConditions := pre + trig + ["  condition:"];
      assert Lines(a, automationId) == beforeConditions + items + (["  action:"] + act);
      assert |beforeConditions| == ConditionStart(a);
      ItemsLines(beforeConditions, Conditions.SubLines(a.conditions), ["  action:"] + act);
    }
  }

  /** A line that starts like an alias line is not a list item, a section
      header or an id line. */
  lemma AliasPrefixShape(line: string)
    ensures StartsWith(line, "  alias: ") ==>
      !Indented(line) && line !in ["  trigger:", "  condition:", "  action:"] && line[0] != '-'
  {
    if StartsWith(line, "  alias: ") {
      assert line[..9][0] == ' ' && line[..9][2] == 'a' && line[..9][3] == 'l';
      assert line[2..4][0] == 'a';
      assert "  trigger:"[2] == 't' && "  condition:"[2] == 'c' && "  action:"[3] == 'c';
    }
  }

  /** The condition header is not a list item, another header, an id line
      or an alias line. */
  lemma ConditionHeaderShape()
    ensures !Indented("  condition:") && "  condition:" !in ["  trigger:", "  action:"]
    ensures "  condition:"[0] != '-' && !StartsWith("  condition:", "  alias: ")
  {
    assert "  condition:"[2..4][0] == 'c';
    assert "  condition:"[..9][2] == 'c';
  }

  /** The block `dump_automations` prints for the automation at index `i`:
      its output under the id `id_prefix + str(i + 1)`, then one empty line. */
  function DumpBlocks(automations: seq<Automation>, idPrefix: string): (r: seq<seq<string>>)
    ensures |r| == |automations|
    ensures forall i :: 0 <= i < |automations| ==> r[i] == DumpBlock(automations[i], idPrefix + NatToString(i + 1))
  {
    seq(|automations|, i requires 0 <= i < |automations| => DumpBlock(automations[i], idPrefix + NatToString(i + 1)))
  }

  function DumpBlock(a: Automation, automationId: string): seq<string>
  {
    Lines(a, automationId) + [""]
  }

  function DumpLines(automations: seq<Automation>, idPrefix: string): seq<string>
  {
    Concat(DumpBlocks(automations, idPrefix))
  }

  /** `Automation.dump_automations`: the blocks in list order, joined with
      newlines. */
  method DumpAutomations(automations: seq<Automation>, idPrefix: string) returns (text: string)
    ensures text == Join(DumpLines(automations, idPrefix), '\n')
  {
    ghost var blocks := DumpBlocks(automations, idPrefix);
    var lines := [];
    var i := 0;
    while i < |automations|
      invariant 0 <= i <= |automations|
      invariant lines == Concat(blocks[..i])
    {
      var block := Output(automations[i], idPrefix + NatToString(i + 1));
      assert block + [""] == DumpBlock(automations[i], idPrefix + NatToString(i + 1));
      lines := lines + block;
      lines := lines + [""];
      assert blocks[..i + 1][..i] == blocks[..i];
      i := i + 1;
    }
    assert blocks[..i] == blocks;
    text := Join(lines, '\n');
  }

  /** One dump block: the automation's output and an empty line. */
  lemma DumpBlockShape(a: Automation, automationId: string)
    ensures |DumpBlock(a, automationId)| == LineCount(a) + 1
    ensures DumpBlock(a, automationId)[0] == IdLine(automationId)
    ensures DumpBlock(a, automationId)[LineCount(a)] == ""
  {
    OutputHeaders(a, automationId);
  }

  /** In the dump, the block of the automation at index `k` starts, right
      after the blocks of the automations before it, with the id line for
      `id_prefix + str(k + 1)`. */
  lemma DumpIdLine(automations: seq<Automation>, idPrefix: string, k: nat)
    requires k < |automations|
    ensures |Concat(DumpBlocks(automations, idPrefix)[..k])| < |Concat(DumpBlocks(automations, idPrefix))|
    ensures Concat(DumpBlocks(automations, idPrefix))[|Concat(DumpBlocks(automations, idPrefix)[..k])|]
            == IdLine(idPrefix + NatToString(k + 1))
  {
    var blocks := DumpBlocks(automations, idPrefix);
    var id := idPrefix + NatToString(k + 1);
    assert 0 < |blocks[k]| && blocks[k][0] == IdLine(id) by {
      DumpBlockShape(automations[k], id);
    }
    ConcatIndex(blocks, k, 0);
  }

  /** ... and ends with an empty line, right before the block of the next
      automation. */
  lemma DumpBlankLine(automations: seq<Automation>, idPrefix: string, k: nat)
    requires k < |automations|
    ensures 0 < |Concat(DumpBlocks(automations, idPrefix)[..k + 1])| <= |Concat(DumpBlocks(automations, idPrefix))|
    ensures Concat(DumpBlocks(automations, idPrefix))[|Concat(DumpBlocks(automations, idPrefix)[..k + 1])| - 1] == ""
  {
    var blocks := DumpBlocks(automations, idPrefix);
    assert 0 < |blocks[k]| && blocks[k][|blocks[k]| - 1] == "" by {
      DumpBlockShape(automations[k], idPrefix + NatToString(k + 1));
    }
    ConcatBlockEnd(blocks, k);
  }

  /** The dump has one line per output line of each automation, plus one
      empty line per automation. */
  lemma DumpLineCount(automations: seq<Automation>, idPrefix: string)
    ensures |DumpLines(automations, idPrefix)| ==
            Sum(seq(|automations|, i requires 0 <= i < |automations| => LineCount(automations[i]) + 1))
  {
    var blocks := DumpBlocks(automations, idPrefix);
    var counts := seq(|automations|, i requires 0 <= i < |automations| => LineCount(automations[i]) + 1);
    ConcatLength(blocks);
    forall i | 0 <= i < |automations|
      ensures Lengths(blocks)[i] == counts[i]
    {
      DumpBlockShape(automations[i], idPrefix + NatToString(i + 1));
    }
    assert Lengths(blocks) == counts;
  }

  /** Different positions in the list get different ids. */
  lemma DumpIdsDistinct(idPrefix: string, i: nat, j: nat)
    requires i != j
    ensures IdLine(idPrefix + NatToString(i + 1)) != IdLine(idPrefix + NatToString(j + 1))
  {
    NatToStringInjective(i + 1, j + 1);
    PrefixCancel(idPrefix, NatToString(i + 1), NatToString(j + 1));
    IdLineInjective(idPrefix + NatToString(i + 1), idPrefix + NatToString(j + 1));
  }

  lemma PrefixCancel(p: string, x: string, y: string)
    ensures p + x == p + y ==> x == y
  {
    if p + x == p + y {
      assert (p + x)[|p|..] == x;
      assert (p + y)[|p|..] == y;
    }
  }

  lemma IdLineInjective(x: string, y: string)
    ensures IdLine(x) == IdLine(y) ==> x == y
  {
    if IdLine(x) == IdLine(y) {
      assert IdLine(x)[7..|IdLine(x)| - 1] == x;
      assert IdLine(y)[7..|IdLine(y)| - 1] == y;
    }
  }
}
