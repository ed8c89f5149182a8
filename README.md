# hassutils: timed-light automations and the retrying Vera setup, in Dafny

hassutils generates Home Assistant configuration. One of its tools is
`TimedLightAutomationMaker`, which reads a small text format of rules:

    events=<event>,<event>,...
    <name>, <on time>, <off time>, <light>|<light>|..., <enabling input_boolean>

Each rule becomes a list of Home Assistant automations. There are two
switching automations: one at the on time and one at the off time, each given
as a clock time `HH[:MM[:SS]]` or a sun time `sunset|sunrise[±[[HH:]MM:]SS]`.
There are also re-evaluation automations: one at start-up, one per configured
event, and one for when the enabling entity is switched on. Each of these
turns the lights on or off through a Jinja template, depending on which
switching time comes next. The automations render as YAML through
`Automation.output` and `Automation.dump_automations`. Conditions render
through `Condition` and `CompositeCondition`.

The second component, `vera_patcher`, replaces the Vera integration's `setup`
with one that retries. When the controller cannot be reached, it fires
`vera_load_failed` and arms a timer. The timer restarts the controller and
tries again, with a delay that grows by half each time up to an hour. On
success it buckets the devices by type and publishes them and the scenes. On
a retry, it then reloads the platforms before firing `vera_loaded`.

The Dafny model has one module per source file or concern:

- `Base` holds options, results carrying a Python exception, Python
  truthiness, and flattening of line blocks.
- `Text` holds the `str` operations used: `split`, `join`, `strip`, `str(n)`
  and `{:02d}`.
- `Things` holds `BasicThing` and list-item rendering.
- `Conditions` models condition.py.
- `Automations` models automation.py.
- `TimeSyntax` models the two time parsers and `_calc_seconds`.
- `TimedLights` models `get_automations`.
- `TimedLightsParse` models `parse`.
- `VeraPatcher` models vera_patcher.py.

Code that loops in the source is a method with a loop, proved equal to a
specification function. The properties are proved about those functions. The
patched Vera setup is a class that holds:

- the `hass.data` entries it writes;
- the controllers made so far;
- the callbacks waiting to run;
- a log of the Home Assistant and pyvera calls it makes.

## Model

| member | source | states |
|---|---|---|
| Text.Pad2 | hassutils/generated/automations/tools/timed_lights.py:38 | `{:02d}` of a number below 100 is two digits that read back as that number |
| Text.NatToString | hassutils/generated/automations/automation.py:41 | `str(i + 1)` is a non-empty run of decimal digits with no leading zero |
| Text.NatToStringRoundTrip | hassutils/generated/automations/automation.py:41 | reading the digits of `str(n)` back gives `n` |
| Text.NatToStringInjective | hassutils/generated/automations/automation.py:41 | distinct numbers print as distinct strings |
| Text.Split | hassutils/generated/automations/tools/timed_lights.py:203-204 | `split(sep)` returns at least one piece, and no piece contains the separator |
| Text.JoinSplit | hassutils/generated/automations/automation.py:44 | joining the pieces of a split with the separator gives back the original string |
| Text.SplitJoin | hassutils/generated/automations/automation.py:44 | splitting a join of separator-free pieces gives back the pieces |
| Text.SplitNoSep | hassutils/generated/automations/tools/timed_lights.py:204 | a string without the separator splits into itself alone |
| Text.SplitAfterPiece | hassutils/generated/automations/tools/timed_lights.py:204 | the first piece of `piece + sep + tail` is `piece`, whatever `tail` holds |
| Text.LStrip | hassutils/generated/automations/tools/timed_lights.py:204 | `lstrip` drops exactly the leading whitespace: the result is a suffix, everything dropped is whitespace, and the result does not start with whitespace |
| Text.RStrip | hassutils/generated/automations/tools/timed_lights.py:204 | `rstrip` drops exactly the trailing whitespace, by the same three facts |
| Text.StripAll | hassutils/generated/automations/tools/timed_lights.py:213 | `[p.strip() for p in parts]` keeps the number and order of the parts |
| Text.StripShape | hassutils/generated/automations/tools/timed_lights.py:204 | a stripped line neither starts nor ends with whitespace, and stripping twice is stripping once |
| Text.StripKeeps | hassutils/generated/automations/tools/timed_lights.py:204 | a string that neither starts nor ends with whitespace is its own `strip()` |
| Text.JoinStripped | hassutils/generated/automations/tools/timed_lights.py:204 | stripped pieces joined by a non-space separator need no stripping |
| Text.JoinAvoids | hassutils/generated/automations/tools/timed_lights.py:204 | a character in no piece, other than the separator, is not in the join |
| Things.ItemsLength | hassutils/generated/automations/automation.py:22-23 | printing blocks as list items keeps every block's line count |
| Things.ItemsLines | hassutils/generated/automations/automation.py:22-32 | line `j` of element `k` appears after the lines of all earlier elements, prefixed `"  - "` when it is the element's first line and four spaces otherwise |
| Things.ItemsIndented | hassutils/generated/automations/automation.py:23 | every printed item line starts with `"  - "` or four spaces |
| Things.BasicThing.Output | hassutils/generated/automations/automation.py:47-52 | `output()` hands back the constructor arguments, in order |
| Conditions.NewCompositeCondition | hassutils/generated/automations/condition.py:8-13 | construction succeeds exactly for the kinds `and` and `or`, keeping kind and sub-conditions; any other kind raises `AssertionError` |
| Conditions.Output | hassutils/generated/automations/condition.py:4-24 | a plain condition prints its own lines; a composite one starts with its two header lines |
| Conditions.Lines | hassutils/generated/automations/condition.py:4-24 | the specification of `output()`: a plain condition is its own lines, a composite one the header and its sub-conditions as list items (stated by `CompositeOutputShape`) |
| Conditions.CompositeOutputShape | hassutils/generated/automations/condition.py:15-24 | a composite condition prints `condition: <kind>` and `conditions:`, then every line of every sub-condition in order as a list item, and nothing else |
| Automations.NewAutomation | hassutils/generated/automations/automation.py:4-8 | an empty or missing `triggers` falls back to `[trigger]`, else raises `KeyError('trigger')`; the same holds for actions; the conditions are `conditions`, else `[condition]` when one is given, else none; the result has no conditions exactly when neither is given |
| Automations.ExtendWithItems | hassutils/generated/automations/automation.py:22-23 | the loop over triggers or actions appends each one's lines as a list item, in order |
| Automations.ExtendWithConditions | hassutils/generated/automations/automation.py:27-28 | the loop over conditions appends each one's lines as a list item, in order |
| Automations.Output | hassutils/generated/automations/automation.py:10-34 | `output(id)` builds the lines of the automation, starting with the id line |
| Automations.Lines | hassutils/generated/automations/automation.py:10-34 | the specification of `output(id)`, section by section (stated by `Sections`, `OutputHeaders` and `OutputItems`) |
| Automations.LineCount | hassutils/generated/automations/automation.py:10-34 | the number of lines `output` prints, which `OutputHeaders` proves equal to the length of `Lines` |
| Automations.Sections | hassutils/generated/automations/automation.py:10-34 | the output is, in order: the id line, the alias line, `trigger:` with its items, the condition section, then `action:` with its items; each section has the size of its items |
| Automations.OutputHeaders | hassutils/generated/automations/automation.py:13-32 | the total line count, and where the id line, `trigger:` and `action:` sit; the action items run to the end |
| Automations.OutputAlias | hassutils/generated/automations/automation.py:18-19 | the alias line is printed, second, exactly when the alias is truthy; otherwise no line looks like an alias line |
| Automations.OutputConditionHeader | hassutils/generated/automations/automation.py:25-26 | `condition:` is printed exactly when there are conditions, right before their items |
| Automations.OutputItems | hassutils/generated/automations/automation.py:22-32 | every line of every trigger, condition and action appears in its section, in order, with its list-item prefix |
| Automations.AliasPrefixShape | hassutils/generated/automations/automation.py:19 | an alias line cannot be mistaken for an item, a section header or an id line |
| Automations.ConditionHeaderShape | hassutils/generated/automations/automation.py:26 | the condition header cannot be mistaken for an item, another header, an id line or an alias line |
| Automations.DumpBlocks | hassutils/generated/automations/automation.py:40-42 | there is one block per automation, numbered from 1 after the id prefix |
| Automations.DumpAutomations | hassutils/generated/automations/automation.py:37-44 | `dump_automations` joins, with newlines, every automation's output, each followed by an empty line |
| Automations.DumpBlockShape | hassutils/generated/automations/automation.py:41-42 | a block is the output, starting with the id line, followed by one empty line |
| Automations.DumpIdLine | hassutils/generated/automations/automation.py:40-41 | in the dump, the block of automation `k` starts, after all earlier blocks, with the id `prefix + str(k + 1)` |
| Automations.DumpBlankLine | hassutils/generated/automations/automation.py:42 | the block of automation `k` ends with an empty line |
| Automations.DumpLineCount | hassutils/generated/automations/automation.py:40-44 | the dump has one line per output line of each automation, plus one per automation |
| Automations.DumpIdsDistinct | hassutils/generated/automations/automation.py:41 | automations at different positions get different id lines |
| Automations.IdLineInjective | hassutils/generated/automations/automation.py:13 | different ids give different id lines |
| TimeSyntax.PairAt | hassutils/generated/automations/tools/timed_lights.py:15-17 | `int()` of two digits is below 100 |
| TimeSyntax.CalcTime | hassutils/generated/automations/tools/timed_lights.py:12-20 | `_calc_time` gives a time only when its parts are in range, and the hours are the two leading digits; the lemmas below give its value on every form |
| TimeSyntax.CalcTimeHours | hassutils/generated/automations/tools/timed_lights.py:12-20 | `HH` not followed by `:MM` reads as `(HH, 0, 0)` when `HH <= 23` and as `None` otherwise, whatever follows |
| TimeSyntax.CalcTimeHoursMinutes | hassutils/generated/automations/tools/timed_lights.py:12-20 | `HH:MM` not followed by `:SS` reads as `(HH, MM, 0)` when both are in range and as `None` otherwise |
| TimeSyntax.CalcTimeFull | hassutils/generated/automations/tools/timed_lights.py:12-20 | `HH:MM:SS` followed by anything reads as `(HH, MM, SS)` when all three are in range (seconds up to 60) and as `None` otherwise |
| TimeSyntax.FormatTime | hassutils/generated/automations/tools/timed_lights.py:38 | `{:02d}:{:02d}:{:02d}` of an in-range time is eight characters long |
| TimeSyntax.ParseOffset | hassutils/generated/automations/tools/timed_lights.py:9 | the matched offset group starts with its sign, `+` or `-`, and every field is two digits; the lemmas below give its value on every form |
| TimeSyntax.OffsetSeconds | hassutils/generated/automations/tools/timed_lights.py:9 | a sign and `SS` not followed by `:SS` is an offset of `SS` seconds, no minutes and no hours |
| TimeSyntax.OffsetMinutes | hassutils/generated/automations/tools/timed_lights.py:9 | a sign and `MM:SS` not followed by `:SS` is an offset of `MM` minutes and `SS` seconds, no hours |
| TimeSyntax.OffsetFull | hassutils/generated/automations/tools/timed_lights.py:9 | a sign and `HH:MM:SS` is an offset of those three parts, whatever follows |
| TimeSyntax.SunKind | hassutils/generated/automations/tools/timed_lights.py:9 | the kind is `set` or `rise`, and the text starts with `sun` + kind |
| TimeSyntax.CalcSunTime | hassutils/generated/automations/tools/timed_lights.py:23-38 | `_calc_sun_time` gives a kind of `set` or `rise` that the text starts with, and an offset that is `00:00:00` or a nine-character signed `HH:MM:SS` |
| TimeSyntax.SunNoOffset | hassutils/generated/automations/tools/timed_lights.py:23-34 | when no sign followed by two digits comes after the event, the offset is `00:00:00` and the parts are all 0, whatever the text holds |
| TimeSyntax.SunSigned | hassutils/generated/automations/tools/timed_lights.py:35-38 | a matched offset gives the sign followed by `HH:MM:SS` and the parts multiplied by the sign when they are in range, and `None` otherwise |
| TimeSyntax.SunSeconds | hassutils/generated/automations/tools/timed_lights.py:23-38 | `sun<kind>±SS` is widened to `±00:00:SS` with parts `(0, 0, ±SS)` when `SS <= 60`, and is `None` otherwise |
| TimeSyntax.SunMinutesSeconds | hassutils/generated/automations/tools/timed_lights.py:23-38 | `sun<kind>±MM:SS` is widened to `±00:MM:SS` with parts `(0, ±MM, ±SS)` when both are in range, and is `None` otherwise |
| TimeSyntax.SunFull | hassutils/generated/automations/tools/timed_lights.py:23-38 | `sun<kind>±HH:MM:SS` keeps its offset, with parts `(±HH, ±MM, ±SS)`, when all three are in range, and is `None` otherwise |
| TimeSyntax.CalcTimeFormat | hassutils/generated/automations/tools/timed_lights.py:12-20 | every in-range time printed as `HH:MM:SS`, followed by anything, reads back as itself |
| TimeSyntax.CalcTimeNormalises | hassutils/generated/automations/tools/timed_lights.py:12-20 | a clock time read and printed again reads back as the same time |
| TimeSyntax.TimeOrSun | hassutils/generated/automations/tools/timed_lights.py:8-9 | no text is both a clock time and a sun time |
| TimeSyntax.SunKindOf | hassutils/generated/automations/tools/timed_lights.py:9 | `sun` followed by a kind selects that kind |
| TimeSyntax.CalcSunTimeNormalises | hassutils/generated/automations/tools/timed_lights.py:23-38 | `sun` + kind + the normalised offset reads back as the same sun time |
| TimeSyntax.OffsetFormat | hassutils/generated/automations/tools/timed_lights.py:38 | a signed in-range offset printed as `±HH:MM:SS` reads back as itself |
| TimeSyntax.SunSignSymmetry | hassutils/generated/automations/tools/timed_lights.py:36-38 | a `-` offset parses exactly when the `+` offset does, and gives the negated number of seconds |
| TimeSyntax.OffsetSignFree | hassutils/generated/automations/tools/timed_lights.py:9 | the offset group matches the same fields after `+` as after `-` |
| TimeSyntax.SignedSeconds | hassutils/generated/automations/tools/timed_lights.py:36-45 | negating the sign negates the number of seconds of the offset |
| TimeSyntax.SunOffsetBounds | hassutils/generated/automations/tools/timed_lights.py:36-45 | an offset is at most a day either way, and its seconds have the sign of the offset |
| TimeSyntax.CalcSeconds | hassutils/generated/automations/tools/timed_lights.py:41-45 | `_calc_seconds` of an in-range time lies between 0 and 86400 |
| TimeSyntax.CalcSecondsInjective | hassutils/generated/automations/tools/timed_lights.py:41-45 | below the leap second, two in-range times with the same number of seconds are the same time |
| TimeSyntax.ExampleMinutesOffset | hassutils/generated/automations/tools/timed_lights.py:194 | `sunset+10:00` is sunset with offset `+00:10:00` |
| TimeSyntax.ExampleNegativeOffset | hassutils/generated/automations/tools/timed_lights.py:196 | `sunset-30:00` is sunset with offset `-00:30:00`, that is -1800 seconds |
| TimeSyntax.ExampleIgnoredOffset | hassutils/generated/automations/tools/timed_lights.py:33-34 | in `sunrise+1:00` the offset group does not match, so the offset is `00:00:00` |
| TimeSyntax.ExampleClockTimes | hassutils/generated/automations/tools/timed_lights.py:19 | `23:30` is a time; `7:30` and `24:00` are not |
| TimedLights.ReadSwitch | hassutils/generated/automations/tools/timed_lights.py:88-115 | an `on` or `off` text is usable exactly when `_calc_time` or `_calc_sun_time` accepts it; it is a sun time exactly when `_calc_sun_time` accepts it; the value read is what the parser returned |
| TimedLights.Lights | hassutils/generated/automations/tools/timed_lights.py:80 | one `  - <entity>` line per entity, in order |
| TimedLights.RestrictConditions | hassutils/generated/automations/tools/timed_lights.py:96-99 | one condition when `restrict` is truthy, none otherwise; that condition is a plain one printing `condition: state`, `entity_id: <restrict>` and `state: 'on'` |
| TimedLights.Indent | hassutils/generated/automations/tools/timed_lights.py:173 | every definition is indented by two spaces, in order |
| TimedLights.SunDef | hassutils/generated/automations/tools/timed_lights.py:143-144 | the `next_on_time` or `next_off_time` definition of a sun time: the next sunset or sunrise plus the `_calc_seconds` of the offset (template text, not evaluated) |
| TimedLights.ClockDefs | hassutils/generated/automations/tools/timed_lights.py:145-147 | the two definitions of a clock time: the time printed `HH:MM:SS` today, as a timestamp, or tomorrow once it has passed (template text, not evaluated) |
| TimedLights.SwitchDefs | hassutils/generated/automations/tools/timed_lights.py:143-153 | a sun time gives the one sun definition, a clock time the two clock definitions |
| TimedLights.Defs | hassutils/generated/automations/tools/timed_lights.py:133-155 | `defs`: the fixed definitions, then those of the on time and the off time, then `on_off`; `BuildDefs` builds it |
| TimedLights.EventTriggers | hassutils/generated/automations/tools/timed_lights.py:162-164 | one event trigger per configured event, in order |
| TimedLights.SwitchAutomationBuilt | hassutils/generated/automations/tools/timed_lights.py:101-129 | the `Automation(alias=..., trigger=..., conditions=..., action=...)` call of a switching automation succeeds and builds the automation with one trigger and one action |
| TimedLights.ReevalAutomationBuilt | hassutils/generated/automations/tools/timed_lights.py:179-183 | the `Automation(..., actions=[...])` call of a re-evaluation automation succeeds and builds it |
| TimedLights.ReevalAutomations | hassutils/generated/automations/tools/timed_lights.py:171-183 | one re-evaluation automation per `auto_triggers` entry, in order |
| TimedLights.ExpandOutcome | hassutils/generated/automations/tools/timed_lights.py:63-131 | `get_automations` raises `KeyError('entity')` exactly when there are no entities; otherwise it raises `AssertionError` exactly when the on or off text is neither a clock time nor a sun time; otherwise it returns |
| TimedLights.Expand | hassutils/generated/automations/tools/timed_lights.py:63-184 | what `get_automations` returns or raises; `ExpandOutcome` states when it raises which exception |
| TimedLights.Expansion | hassutils/generated/automations/tools/timed_lights.py:94-184 | the automations of a rule whose times were read; stated by `ExpansionCount`, `ExpansionAlias`, `ExpansionConditions` and the lemmas after it |
| TimedLights.ExpansionCount | hassutils/generated/automations/tools/timed_lights.py:101-184 | a rule gives 3 automations, plus one per event, plus one when `restrict` is truthy |
| TimedLights.ExpansionAlias | hassutils/generated/automations/tools/timed_lights.py:102-179 | automation `i` is aliased `<alias> (<reason i>)` when the alias is truthy and has no alias otherwise; the reasons are `on`, `off`, `recover`, the events, `restrict_enabled` |
| TimedLights.ExpansionReeval | hassutils/generated/automations/tools/timed_lights.py:171-183 | automation `2 + j` is the re-evaluation automation of `auto_triggers` entry `j` |
| TimedLights.ReasonAt | hassutils/generated/automations/tools/timed_lights.py:157-169 | past the two switching automations, reason `i` is the reason of `auto_triggers` entry `i - 2` |
| TimedLights.ExpansionConditions | hassutils/generated/automations/tools/timed_lights.py:94-183 | every automation has one trigger, one action, and the restricting condition exactly when `restrict` is truthy |
| TimedLights.ExpansionSwitchTriggers | hassutils/generated/automations/tools/timed_lights.py:101-160 | the on and off automations come first, triggered at the on and off times, then the start-up automation |
| TimedLights.AutoTriggersAt | hassutils/generated/automations/tools/timed_lights.py:157-169 | `auto_triggers` is start-up, the events, then the enabling of `restrict` when it is truthy |
| TimedLights.AutoTriggerEvent | hassutils/generated/automations/tools/timed_lights.py:162-164 | entry `1 + k` of `auto_triggers` is the trigger on event `k` |
| TimedLights.ExpansionEventTrigger | hassutils/generated/automations/tools/timed_lights.py:162-183 | automation `3 + k` is triggered by event `k` |
| TimedLights.ExpansionRestrictTrigger | hassutils/generated/automations/tools/timed_lights.py:166-183 | with a truthy `restrict`, the last automation is triggered by that entity turning on |
| TimedLights.ExpansionAction | hassutils/generated/automations/tools/timed_lights.py:76-182 | automation 0 calls `light.turn_on`, automation 1 `light.turn_off`, and every other the templated `light.turn_{{ on_off }}` over the definitions |
| TimedLights.ExpansionTargets | hassutils/generated/automations/tools/timed_lights.py:76-177 | every action ends with `  entity_id:` followed by the full list of entities |
| TimedLights.CollectAutoTriggers | hassutils/generated/automations/tools/timed_lights.py:157-169 | the loop that builds `auto_triggers` |
| TimedLights.AddReevaluations | hassutils/generated/automations/tools/timed_lights.py:171-183 | the loop over `auto_triggers` appends one re-evaluation automation each, in order, after the existing ones |
| TimedLights.AppendSwitchDefs | hassutils/generated/automations/tools/timed_lights.py:143-153 | a sun time adds one `next_*_time` definition; a clock time adds the two definitions of the time of day |
| TimedLights.BuildDefs | hassutils/generated/automations/tools/timed_lights.py:133-155 | `defs` is the fixed definitions, then on, off, then the `on_off` choice |
| TimedLights.Assemble | hassutils/generated/automations/tools/timed_lights.py:94-184 | with readable on and off times, `get_automations` builds the expansion that the lemmas above describe |
| TimedLights.ChooseSwitch | hassutils/generated/automations/tools/timed_lights.py:88-115 | `_calc_time` is tried first and `_calc_sun_time` second |
| TimedLights.GetAutomations | hassutils/generated/automations/tools/timed_lights.py:63-184 | `get_automations` returns or raises what `ExpandOutcome` characterises |
| TimedLightsParse.Clean | hassutils/generated/automations/tools/timed_lights.py:204 | a cleaned line holds no `#`, and a line without `#` cleans to its `strip()` |
| TimedLightsParse.Classify | hassutils/generated/automations/tools/timed_lights.py:203-215 | a line is skipped exactly when it is empty after cleaning; it sets the events exactly when it starts with `events=`, and they are the stripped `,`-pieces after `events=`; it is too short exactly when it has fewer than four `,`-pieces; a rule line's fields are its stripped `,`-pieces, at least four |
| TimedLightsParse.RuleRequest | hassutils/generated/automations/tools/timed_lights.py:217-222 | a rule passes its first three fields as alias, on and off, the `|`-split fourth as a non-empty entity list, the fifth, if any, as `restrict`, and the events in force |
| TimedLightsParse.Kinds | hassutils/generated/automations/tools/timed_lights.py:203 | every line is read independently, in order |
| TimedLightsParse.Step | hassutils/generated/automations/tools/timed_lights.py:205-222 | one round of the loop; stated by `StepMeaning` |
| TimedLightsParse.ParseKinds | hassutils/generated/automations/tools/timed_lights.py:201-224 | the loop as a left fold over the lines; stated by `ParseKindsMeaning` and `ErrorSticky` |
| TimedLightsParse.LastEvents | hassutils/generated/automations/tools/timed_lights.py:208-211 | the events of the last `events=` line, none before the first |
| TimedLightsParse.Parse | hassutils/generated/automations/tools/timed_lights.py:187-224 | what `parse(configs_text)` returns or raises; stated by `ParseNoKeyError` and the fold lemmas |
| TimedLightsParse.AllLineAutomations | hassutils/generated/automations/tools/timed_lights.py:217-222 | each line's automations, read with the events of the last earlier `events=` line |
| TimedLightsParse.ErrorSticky | hassutils/generated/automations/tools/timed_lights.py:217-222 | once `get_automations` has raised, later lines change nothing |
| TimedLightsParse.ErrorEnds | hassutils/generated/automations/tools/timed_lights.py:217-222 | the first exception is what the whole loop raises |
| TimedLightsParse.ParseKindsMeaning | hassutils/generated/automations/tools/timed_lights.py:201-224 | the loop raises exactly when some line's `get_automations` raises; otherwise `tls` is every line's automations concatenated in line order, and `events` is that of the last `events=` line |
| TimedLightsParse.StepMeaning | hassutils/generated/automations/tools/timed_lights.py:205-222 | one round appends the line's automations, or raises when they raise, and replaces the events only on an `events=` line |
| TimedLightsParse.ParseKindsOnlyAssertion | hassutils/generated/automations/tools/timed_lights.py:217-222 | when `get_automations` raises only `AssertionError` for a non-empty entity list, so does the loop |
| TimedLightsParse.ParseNoKeyError | hassutils/generated/automations/tools/timed_lights.py:217-222 | `parse` never raises `KeyError`; the only exception it can raise is `AssertionError` |
| TimedLightsParse.RuleLineOutcome | hassutils/generated/automations/tools/timed_lights.py:213-222 | a rule line raises exactly when its on or off field is neither a clock time nor a sun time |
| TimedLightsParse.CommentIgnored | hassutils/generated/automations/tools/timed_lights.py:204 | a line without `#` followed by `#` and any comment cleans to the line's `strip()` and reads as the line alone |
| TimedLightsParse.RuleLineRoundTrip | hassutils/generated/automations/tools/timed_lights.py:203-222 | four or more stripped fields free of `,` and `#`, the first not starting with `events=`, joined by `,` and followed by any comment, read back as exactly those fields, and the line asks for the automations of the request built from them |
| TimedLightsParse.NotEventsLine | hassutils/generated/automations/tools/timed_lights.py:208-209 | a line whose first field does not start with `events=` is not an `events=` line |
| TimedLightsParse.EventsLineRoundTrip | hassutils/generated/automations/tools/timed_lights.py:203-210 | `events=` and stripped events free of `,` and `#`, joined by `,` and followed by any comment, read back as exactly those events |
| TimedLightsParse.ParseConfigs | hassutils/generated/automations/tools/timed_lights.py:187-224 | the loop of `parse` computes what `ParseKindsMeaning` characterises, stopping at the first exception |
| TimedLightsParse.ReadRound | hassutils/generated/automations/tools/timed_lights.py:205-222 | the loop body for one read line |
| TimedLightsParse.ReadLine | hassutils/generated/automations/tools/timed_lights.py:204-215 | the loop body's cleaning, `events=` match and field split of one line |
| VeraPatcher.NextDelay | hassutils/custom_components/vera_patcher.py:69 | the next delay is the smaller of 3600 and `next_check * 3 // 2`; it is never below the current one when that lies in 0..3600; from 2 upwards it grows strictly until it is capped; from 2400 upwards it is 3600 |
| VeraPatcher.Delay | hassutils/custom_components/vera_patcher.py:57-77 | the delay of the timer armed by the `k`-th failed attempt in a row, starting from 30; stated by `DelayBounds`, `DelayMonotone`, `DelaySchedule` and `DelayStays` |
| VeraPatcher.DelayBounds | hassutils/custom_components/vera_patcher.py:57-69 | from the default 30, every retry delay lies between 30 and 3600 |
| VeraPatcher.DelayMonotone | hassutils/custom_components/vera_patcher.py:57-69 | the retry delays never shrink |
| VeraPatcher.DelaySchedule | hassutils/custom_components/vera_patcher.py:57-69 | the delays run 30, 45, 67, 100, ..., 2553, growing strictly, and the twelfth retry reaches 3600 |
| VeraPatcher.DelayStays | hassutils/custom_components/vera_patcher.py:69 | from the twelfth retry on, the delay stays at 3600 |
| VeraPatcher.NextDelayIsDelay | hassutils/custom_components/vera_patcher.py:69-77 | the delay a handler passes on is again one of the retry delays, between 30 and 3600 |
| VeraPatcher.PendingDelayBounds | hassutils/custom_components/vera_patcher.py:69-77 | every timer and queued attempt the session keeps pending (`VeraSetup.Valid`) waits between 30 and 3600 seconds, and the delay it passes on is the next one on the schedule |
| VeraPatcher.Category | hassutils/custom_components/vera_patcher.py:83-91 | the input devices placed in one category, in input order; the reference definition for `Bucketed` |
| VeraPatcher.Bucketed | hassutils/custom_components/vera_patcher.py:83-91 | the `defaultdict` the device loop builds; stated by `BucketedMeaning` and `BucketedPlacement` |
| VeraPatcher.CategoryAppend | hassutils/custom_components/vera_patcher.py:83-91 | the devices of a category keep their input order across consecutive runs of devices |
| VeraPatcher.CategoryMembers | hassutils/custom_components/vera_patcher.py:83-91 | a category holds exactly those input devices that are not excluded and whose type is that non-falsy category |
| VeraPatcher.BucketedMeaning | hassutils/custom_components/vera_patcher.py:60-91 | each list of the `defaultdict` is its category in input order, and a type has a list exactly when some device is placed in it |
| VeraPatcher.BucketedPlacement | hassutils/custom_components/vera_patcher.py:83-91 | a device is in the list of a type exactly when it is an input device, its id is not excluded, and that truthy type is what `map_vera_device` gives it |
| VeraPatcher.BucketDevices | hassutils/custom_components/vera_patcher.py:83-91 | the device loop of `checker` builds the buckets that the lemmas above describe |
| VeraPatcher.PlatformLoads | hassutils/custom_components/vera_patcher.py:121-122 | one `load_platform` per component, in order |
| VeraPatcher.LoadEffects | hassutils/custom_components/vera_patcher.py:99-103 | on a retry `load` reloads every platform, and in every case it ends by firing `vera_loaded` |
| VeraPatcher.CheckerTasks | hassutils/custom_components/vera_patcher.py:67-109 | an attempt leaves a callback behind unless it raised an uncaught exception or succeeded on the first try |
| VeraPatcher.CheckerEffects | hassutils/custom_components/vera_patcher.py:57-111 | what an attempt does after querying the controller: on `RequestException`, arm a timer for the current delay, whose handler carries the next one, then fire `vera_load_failed`; on any other exception, nothing more; on success, either load now (first attempt) or schedule `load` with delay 0 (retry) |
| VeraPatcher.FailedAttempt | hassutils/custom_components/vera_patcher.py:67-81 | a failed attempt fires `vera_load_failed` exactly once and `vera_loaded` never, and arms exactly one timer, for `next_check` and not `next_delay` |
| VeraPatcher.SucceededAttempt | hassutils/custom_components/vera_patcher.py:95-111 | a successful attempt never fires `vera_load_failed`; it fires `vera_loaded` at once on the first attempt and leaves it to the deferred `load` on a retry |
| VeraPatcher.VeraSetup.constructor | hassutils/custom_components/vera_patcher.py:46-51 | the configuration is read, and nothing is stored in `hass.data` yet |
| VeraPatcher.VeraSetup.NewController | hassutils/custom_components/vera_patcher.py:54 | a new controller for `base_url` is made and stored as `hass.data[VERA_CONTROLLER]` |
| VeraPatcher.VeraSetup.LoadPlatforms | hassutils/custom_components/vera_patcher.py:121-122 | `load_platform` is called for every component, in order, and nothing else changes |
| VeraPatcher.VeraSetup.Load | hassutils/custom_components/vera_patcher.py:95-103 | `load` stores the devices and scenes, then does what `LoadEffects` describes |
| VeraPatcher.VeraSetup.Checker | hassutils/custom_components/vera_patcher.py:57-111 | `checker`, called with a delay of the backoff schedule (30 first, then each `next_delay`), returns False on `RequestException`, raises on any other exception, and returns True on success. Every retry timer it arms carries the next delay of that schedule, kept as part of `Valid`. It does what `CheckerEffects` and `CheckerTasks` describe. It publishes devices and scenes only on a successful first attempt; a failure leaves earlier ones untouched |
| VeraPatcher.VeraSetup.Setup | hassutils/custom_components/vera_patcher.py:54-124 | `setup` makes the controller, registers the shutdown hook and seeds empty devices and scenes before the first attempt. Unless that attempt raises, it then loads every platform and returns True, whatever the attempt's outcome |
| VeraPatcher.VeraSetup.StopSubscription | hassutils/custom_components/vera_patcher.py:41-44 | at shutdown, the controller stored at that time is stopped |
| VeraPatcher.VeraSetup.RunHandler | hassutils/custom_components/vera_patcher.py:72-77 | the retry handler stops the stored controller, then stores a new one for the same URL, then queues `checker(new, next_delay, True)` |
| VeraPatcher.VeraSetup.RunCheck | hassutils/custom_components/vera_patcher.py:77 | a queued retry attempt is `checker` on its own controller, with its own delay, as a retry |
| VeraPatcher.VeraSetup.RunLoad | hassutils/custom_components/vera_patcher.py:109 | the deferred `load` of a successful retry publishes what that attempt found, reloads every platform and fires `vera_loaded` |

## Left out

- Python's `\d` matches any Unicode decimal digit; `TimeSyntax` reads only ASCII `0`-`9`. `Text.IsSpace` lists the characters `str.isspace` accepts.
- Regular expressions are not modelled as such. The three fixed patterns (`_time_re`, `_sun_re`, `^events=(.*)$`) are written out as character scanners with the same optional groups and backtracking outcomes.
- The generated Jinja templates are opaque text. Sunrise and sunset arithmetic is not evaluated; only the number of seconds spliced in and the `{:02d}` time fields are modelled.
- `_format_template_time` (timed_lights.py:48-49) is never called, so it is not modelled.
- trigger.py and action.py are not part of this model. `Trigger` and `Action` are taken to behave like `BasicThing`, a stored list of lines, as `Condition` does.
- The `__main__` demo and its `print` (timed_lights.py:227-237) are left out.
- TimedLights.Expand: the `KeyError` of a missing `on` or `off` keyword is not modelled, because `Request` always carries both texts, as `parse` passes them.
- TimedLights.Expansion takes the template definitions `defs` as a parameter. `Assemble` and `Expand` pass `Defs(on, off)`. The lemmas hold for any definitions.
- TimedLightsParse.Parse folds over the kinds of the lines, classified up front. That is equivalent to the source's one-pass loop, because classifying a line does not depend on earlier lines. The fold's lemmas are stated for any function in the place of `get_automations`.
- vera_patcher.py reaches Home Assistant and pyvera through the calls listed below, and the model reduces each to an effect or to a parameter:
  - `hass.bus.fire`, `listen_once`, `call_later` and `hass.add_job` are recorded as effects;
  - what `get_devices` and `get_scenes` return or raise is a parameter of each attempt;
  - `init_controller` makes a numbered controller;
  - `map_vera_device` and `VERA_COMPONENTS` are parameters;
  - logging is left out.
- Timers and worker threads are not modelled. The effects `call_later` and `hass.add_job` leave a callback pending; `RunHandler`, `RunCheck` and `RunLoad` run any pending one, in whatever order they are called.
- The configuration schema of the Vera integration is not part of this model. `lights` and `exclude` are taken to be lists, as that schema's defaults make them.
- The monkey-patching of `vera.setup` and the outer no-op `setup` (vera_patcher.py:126-133) replace a foreign module's function at runtime, so they are left out.
- VeraPatcher.VeraSetup.StopSubscription and RunHandler require a stored controller. That always holds after `setup`, and `Valid` keeps it for every pending callback. A `KeyError` from a missing controller is not modelled.
