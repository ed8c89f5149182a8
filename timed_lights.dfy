/** timed_lights.py: `TimedLightAutomationMaker.get_automations` expands one
    timed-light rule into automations (switch on, switch off, and one
    re-evaluation automation per start-up or other event), and `parse` reads
    a text file of such rules. */
module TimedLights {
  import opened Base
  import opened Text
  import opened Things
  import opened TimeSyntax
  import Conditions
  import Automations

  /** The keyword arguments of `get_automations`. An empty `entities` stands
      both for a missing and for an empty list, which the source treats
      alike; `on` and `off` are always given. */
  datatype Request = Request(
    alias: Option<string>,
    on: string,
    off: string,
    entities: seq<string>,
    entity: Option<string>,
    restrict: Option<string>,
    events: seq<string>)

  /** How an `on` or `off` text was read: as a clock time or as a sun time. */
  datatype Switch = AtTime(text: string, time: TimeTuple) | AtSun(sun: SunTime)

  predicate ValidSwitch(sw: Switch)
  {
    sw.AtTime? ==> InRange(sw.time.hours, sw.time.minutes, sw.time.seconds)
  }

  /** `_calc_time(text)` is tried first and `_calc_sun_time(text)` second;
      since no text is both, the later `if on_sun` test of the source picks
      the same reading. */
  function ReadSwitch(text: string): (r: Option<Switch>)
    ensures r.Some? <==> CalcTime(text).Some? || CalcSunTime(text).Some?
    ensures r.Some? ==> ValidSwitch(r.value)
    ensures r.Some? ==> (r.value.AtSun? <==> CalcSunTime(text).Some?)
    ensures r.Some? && r.value.AtTime? ==> r.value.text == text && CalcTime(text) == Some(r.value.time)
    ensures r.Some? && r.value.AtSun? ==> CalcSunTime(text) == Some(r.value.sun)
  {
    TimeOrSun(text);
    match CalcTime(text)
    case Some(t) => Some(AtTime(text, t))
    case None =>
      match CalcSunTime(text)
      case Some(sun) => Some(AtSun(sun))
      case None => None
  }

  /** `["  - {}".format(e) for e in entities]`. */
  function Lights(entities: seq<string>): (r: seq<string>)
    ensures |r| == |entities| && forall i :: 0 <= i < |entities| ==> r[i] == "  - " + entities[i]
  {
    seq(|entities|, i requires 0 <= i < |entities| => "  - " + entities[i])
  }

  /** The `light.turn_on` / `light.turn_off` service call on all entities. */
  function LightAction(service: string, entities: seq<string>): Action
  {
    BasicThing(["service: light." + service, "data:", "  entity_id:"] + Lights(entities))
  }

  /** The trigger of the switch-on or switch-off automation: the time as
      written, or the sun event with its normalised offset. */
  function SwitchTrigger(sw: Switch): Trigger
  {
    match sw
    case AtTime(text, _) => BasicThing(["platform: time", "at: '" + text + "'"])
    case AtSun(sun) => BasicThing(["platform: sun", "event: sun" + sun.kind, "offset: '" + sun.offset + "'"])
  }

  /** The state condition on the enabling entity, when `restrict` is truthy. */
  function RestrictConditions(restrict: Option<string>): (r: seq<Conditions.Condition>)
    ensures |r| == (if Truthy(restrict) then 1 else 0)
    ensures Truthy(restrict) ==>
      r[0].Condition? && r[0].thing.Output() == ["condition: state", "entity_id: " + restrict.value, "state: 'on'"]
  {
    if Truthy(restrict) then
      [Conditions.Condition(BasicThing(["condition: state", "entity_id: " + restrict.value, "state: 'on'"]))]
    else []
  }

  /** The fixed Jinja definitions every re-evaluation template starts with. */
  const FixedDefs: seq<string> := [
    "{% set sunset = as_timestamp(state_attr('sun.sun', 'next_setting')) %}",
    "{% set sunrise = as_timestamp(state_attr('sun.sun', 'next_rising')) %}",
    "{% set now = now() %}",
    "{% set today = now.date() %}",
    "{% set twenty_hours = now.replace(hour=21) - now.replace(hour=1) %}",
    "{% set twenty_hours_from_now = now + twenty_hours %}",
    "{% set tomorrow = twenty_hours_from_now.date() if today.day != twenty_hours_from_now.day else (twenty_hours_from_now + twenty_hours).date() %}"
  ]

  /** The definition that decides between turning on and off. */
  const OnOffDef: string :=
    "{% set on_off = 'on' if next_off_time < next_on_time and as_timestamp(now) < next_off_time - 30 else 'off' %}"

  /** The definition of `next_on_time` or `next_off_time` for a sun time:
      the next sun event plus the offset in seconds. */
  function SunDef(name: string, sun: SunTime): string
  {
    "{% set " + name + " = (" + (if sun.kind == "set" then "sunset" else "sunrise")
    + " + " + IntToString(CalcSeconds(sun.parts)) + ") %}"
  }

  /** The definitions of `next_on_time` or `next_off_time` for a clock time:
      that time today, or tomorrow once it has passed. */
  function ClockDefs(name: string, t: TimeTuple): seq<string>
    requires InRange(t.hours, t.minutes, t.seconds)
  {
    ["{% set t = strptime('" + FormatTime(t.hours, t.minutes, t.seconds)
     + "', '%H:%M:%S').replace(year=today.year, month=today.month, day=today.day) %}",
     "{% set " + name
     + " = as_timestamp(t if t.time() > now.time() else t.replace(year=tomorrow.year, month=tomorrow.month, day=tomorrow.day)) %}"]
  }

  function SwitchDefs(name: string, sw: Switch): seq<string>
    requires ValidSwitch(sw)
  {
    match sw
    case AtSun(sun) => [SunDef(name, sun)]
    case AtTime(_, t) => ClockDefs(name, t)
  }

  /** `defs`, the body of the re-evaluation template. */
  function Defs(on: Switch, off: Switch): seq<string>
    requires ValidSwitch(on) && ValidSwitch(off)
  {
    FixedDefs + SwitchDefs("next_on_time", on) + SwitchDefs("next_off_time", off) + [OnOffDef]
  }

  /** `'  ' + d for d in defs`. */
  function Indent(defs: seq<string>): (r: seq<string>)
    ensures |r| == |defs| && forall i :: 0 <= i < |defs| ==> r[i] == "  " + defs[i]
  {
    seq(|defs|, i requires 0 <= i < |defs| => "  " + defs[i])
  }

  /** The templated service call of a re-evaluation automation. */
  function ReevalAction(defs: seq<string>, entities: seq<string>): Action
  {
    BasicThing(["service_template: >"] + Indent(defs)
               + ["  light.turn_{{ on_off }}", "data:", "  entity_id:"] + Lights(entities))
  }

  /** One entry of `auto_triggers`: the reason that names the automation and
      its trigger. */
  datatype AutoTrigger = AutoTrigger(reason: string, trigger: Trigger)

  const Recover: AutoTrigger := AutoTrigger("recover", BasicThing(["platform: homeassistant", "event: start"]))

  function EventTrigger(event: string): AutoTrigger
  {
    AutoTrigger(event, BasicThing(["platform: event", "event_type: " + event]))
  }

  function RestrictTrigger(restrict: string): AutoTrigger
  {
    AutoTrigger("restrict_enabled", BasicThing(["platform: state", "entity_id: " + restrict, "to: 'on'"]))
  }

  function EventTriggers(events: seq<string>): (r: seq<AutoTrigger>)
    ensures |r| == |events| && forall i :: 0 <= i < |events| ==> r[i] == EventTrigger(events[i])
  {
    seq(|events|, i requires 0 <= i < |events| => EventTrigger(events[i]))
  }

  /** `auto_triggers`: start-up, each event in order, and the enabling of
      the restricting entity when there is one. */
  function AutoTriggers(events: seq<string>, restrict: Option<string>): seq<AutoTrigger>
  {
    [Recover] + EventTriggers(events) + (if Truthy(restrict) then [RestrictTrigger(restrict.value)] else [])
  }

  /** `"{} ({})".format(alias, reason) if alias else None`. */
  function Suffixed(alias: Option<string>, reason: string): Option<string>
  {
    if Truthy(alias) then Some(alias.value + " (" + reason + ")") else None
  }

  /** `kwargs.get('entities') or [kwargs['entity']]`. */
  function Entities(req: Request): Result<seq<string>>
  {
    if |req.entities| > 0 then Ok(req.entities)
    else if req.entity.Some? then Ok([req.entity.value])
    else Err(KeyError("entity"))
  }

  /** The switch-on or switch-off automation: one trigger, one action. */
  function SwitchAutomation(alias: Option<string>, reason: string, sw: Switch,
                            conditions: seq<Conditions.Condition>, action: Action): Automations.Automation
  {
    Automations.Automation(Suffixed(alias, reason), [SwitchTrigger(sw)], conditions, [action])
  }

  /** `Automation(alias=..., trigger=..., conditions=..., action=...)` builds
      the switch automation. */
  lemma SwitchAutomationBuilt(alias: Option<string>, reason: string, sw: Switch,
                              conditions: seq<Conditions.Condition>, action: Action)
    ensures Automations.NewAutomation(Suffixed(alias, reason), [], Some(SwitchTrigger(sw)), conditions, None, [], Some(action))
            == Ok(SwitchAutomation(alias, reason, sw, conditions, action))
  {
  }

  /** A re-evaluation automation: the trigger of its `auto_triggers` entry,
      named after its reason, and the templated action. */
  function ReevalAutomation(alias: Option<string>, at: AutoTrigger,
                            conditions: seq<Conditions.Condition>, action: Action): Automations.Automation
  {
    Automations.Automation(Suffixed(alias, at.reason), [at.trigger], conditions, [action])
  }

  /** `Automation(alias=..., trigger=..., conditions=..., actions=[...])`
      builds the re-evaluation automation. */
  lemma ReevalAutomationBuilt(alias: Option<string>, at: AutoTrigger,
                              conditions: seq<Conditions.Condition>, action: Action)
    ensures Automations.NewAutomation(Suffixed(alias, at.reason), [], Some(at.trigger), conditions, None, [action], None)
            == Ok(ReevalAutomation(alias, at, conditions, action))
  {
  }

  function ReevalAutomations(alias: Option<string>, autos: seq<AutoTrigger>,
                             conditions: seq<Conditions.Condition>, action: Action): (r: seq<Automations.Automation>)
    ensures |r| == |autos|
    ensures forall i :: 0 <= i < |autos| ==> r[i] == ReevalAutomation(alias, autos[i], conditions, action)
  {
    seq(|autos|, i requires 0 <= i < |autos| => ReevalAutomation(alias, autos[i], conditions, action))
  }

  predicate NotATime(text: string)
  {
    CalcTime(text).None? && CalcSunTime(text).None?
  }

  /** The automations `get_automations` returns once the entities and
      both switching times are known: switch on, switch off, then one
      re-evaluation automation per entry of `auto_triggers`. */
  function Expansion(alias: Option<string>, on: Switch, off: Switch, entities: seq<string>,
                     restrict: Option<string>, events: seq<string>, defs: seq<string>): seq<Automations.Automation>
  {
    var conditions := RestrictConditions(restrict);
    [SwitchAutomation(alias, "on", on, conditions, LightAction("turn_on", entities)),
     SwitchAutomation(alias, "off", off, conditions, LightAction("turn_off", entities))]
    + ReevalAutomations(alias, AutoTriggers(events, restrict), conditions, ReevalAction(defs, entities))
  }

  /** What `get_automations` returns or raises. */
  function Expand(req: Request): Result<seq<Automations.Automation>>
  {
    match Entities(req)
    case Err(e) => Err(e)
    case Ok(entities) =>
      var on, off := ReadSwitch(req.on), ReadSwitch(req.off);
      if on.None? || off.None? then Err(AssertionError)
      else Ok(Expansion(req.alias, on.value, off.value, entities, req.restrict, req.events, Defs(on.value, off.value)))
  }

  /** `get_automations` raises `KeyError` when there are no entities and no
      entity, else `AssertionError` when `on` or `off` is neither a clock
      time nor a sun time, and returns otherwise. */
  lemma ExpandOutcome(req: Request)
    ensures Expand(req) == Err(KeyError("entity")) <==> req.entities == [] && req.entity.None?
    ensures Expand(req) == Err(AssertionError) <==>
      (req.entities != [] || req.entity.Some?) && (NotATime(req.on) || NotATime(req.off))
    ensures Expand(req).Ok? <==> (req.entities != [] || req.entity.Some?) && !NotATime(req.on) && !NotATime(req.off)
  {
  }

  /** The reason each automation of an expansion is named after, in order. */
  function Reasons(events: seq<string>, restrict: Option<string>): seq<string>
  {
    ["on", "off", "recover"] + events + (if Truthy(restrict) then ["restrict_enabled"] else [])
  }

  /** An expansion holds two switch automations, one for start-up, one per
      event and one for the restricting entity when there is one. */
  lemma ExpansionCount(alias: Option<string>, on: Switch, off: Switch, entities: seq<string>,
                       restrict: Option<string>, events: seq<string>, defs: seq<string>)
    ensures |Expansion(alias, on, off, entities, restrict, events, defs)| == |Reasons(events, restrict)|
    ensures |Reasons(events, restrict)| == 3 + |events| + (if Truthy(restrict) then 1 else 0)
  {
  }

  /** The automation at index `i` is named after the `i`-th reason when the
      alias is truthy, and has no alias otherwise. */
  lemma ExpansionAlias(alias: Option<string>, on: Switch, off: Switch, entities: seq<string>,
                       restrict: Option<string>, events: seq<string>, defs: seq<string>, i: nat)
    requires i < |Expansion(alias, on, off, entities, restrict, events, defs)|
    ensures i < |Reasons(events, restrict)|
    ensures Expansion(alias, on, off, entities, restrict, events, defs)[i].alias == Suffixed(alias, Reasons(events, restrict)[i])
  {
    ExpansionCount(alias, on, off, entities, restrict, events, defs);
    if i >= 2 {
      ReasonAt(events, restrict, i);
      ExpansionReeval(alias, on, off, entities, restrict, events, defs, i - 2);
    }
  }

  /** Past the two switch automations, automation `2 + j` is the
      re-evaluation automation of `auto_triggers` entry `j`. */
  lemma ExpansionReeval(alias: Option<string>, on: Switch, off: Switch, entities: seq<string>,
                        restrict: Option<string>, events: seq<string>, defs: seq<string>, j: nat)
    requires j < |AutoTriggers(events, restrict)|
    ensures 2 + j < |Expansion(alias, on, off, entities, restrict, events, defs)|
    ensures Expansion(alias, on, off, entities, restrict, events, defs)[2 + j]
            == ReevalAutomation(alias, AutoTriggers(events, restrict)[j], RestrictConditions(restrict),
                                ReevalAction(defs, entities))
  {
  }

  /** Entry `i` of the reasons, past the two switch automations, is the
      reason of `auto_triggers` entry `i - 2`. */
  lemma ReasonAt(events: seq<string>, restrict: Option<string>, i: nat)
    requires 2 <= i < |Reasons(events, restrict)|
    ensures |AutoTriggers(events, restrict)| == |Reasons(events, restrict)| - 2
    ensures AutoTriggers(events, restrict)[i - 2].reason == Reasons(events, restrict)[i]
  {
    AutoTriggersAt(events, restrict);
    if i == 2 {
    } else if i < 3 + |events| {
      AutoTriggerEvent(events, restrict, i - 3);
      assert Reasons(events, restrict)[i] == events[i - 3];
    } else {
      assert Reasons(events, restrict)[i] == "restrict_enabled";
    }
  }

  /** Every automation of an expansion has one trigger, one action and the
      same conditions: the state condition on the restricting entity when
      there is one, none otherwise. */
  lemma ExpansionConditions(alias: Option<string>, on: Switch, off: Switch, entities: seq<string>,
                            restrict: Option<string>, events: seq<string>, defs: seq<string>, a: Automations.Automation)
    requires a in Expansion(alias, on, off, entities, restrict, events, defs)
    ensures |a.triggers| == 1 && |a.actions| == 1
    ensures a.conditions == RestrictConditions(restrict)
    ensures a.conditions != [] <==> Truthy(restrict)
  {
  }

  /** The switch automations come first, triggered by the switch-on and the
      switch-off time, then the start-up automation. */
  lemma ExpansionSwitchTriggers(alias: Option<string>, on: Switch, off: Switch, entities: seq<string>,
                                restrict: Option<string>, events: seq<string>, defs: seq<string>)
    ensures var r := Expansion(alias, on, off, entities, restrict, events, defs);
      && |r| >= 3
      && r[0].triggers == [SwitchTrigger(on)]
      && r[1].triggers == [SwitchTrigger(off)]
      && r[2].triggers == [BasicThing(["platform: homeassistant", "event: start"])]
  {
  }

  /** `auto_triggers` starts with start-up and, with a restricting entity,
      ends with its enabling, right after the events. */
  lemma AutoTriggersAt(events: seq<string>, restrict: Option<string>)
    ensures |AutoTriggers(events, restrict)| == 1 + |events| + (if Truthy(restrict) then 1 else 0)
    ensures AutoTriggers(events, restrict)[0] == Recover
    ensures Truthy(restrict) ==> AutoTriggers(events, restrict)[1 + |events|] == RestrictTrigger(restrict.value)
  {
  }

  /** Entry `1 + k` of `auto_triggers` is event `k`. */
  lemma AutoTriggerEvent(events: seq<string>, restrict: Option<string>, k: nat)
    requires k < |events|
    ensures 1 + k < |AutoTriggers(events, restrict)|
    ensures AutoTriggers(events, restrict)[1 + k] == EventTrigger(events[k])
  {
  }

  /** The automation after the start-up one for event `k` is triggered by
      that event. */
  lemma ExpansionEventTrigger(alias: Option<string>, on: Switch, off: Switch, entities: seq<string>,
                              restrict: Option<string>, events: seq<string>, defs: seq<string>, k: nat)
    requires k < |events|
    ensures 3 + k < |Expansion(alias, on, off, entities, restrict, events, defs)|
    ensures Expansion(alias, on, off, entities, restrict, events, defs)[3 + k].triggers
            == [BasicThing(["platform: event", "event_type: " + events[k]])]
  {
    AutoTriggerEvent(events, restrict, k);
    ExpansionReeval(alias, on, off, entities, restrict, events, defs, 1 + k);
  }

  /** With a restricting entity, the last automation is triggered by that
      entity turning on. */
  lemma ExpansionRestrictTrigger(alias: Option<string>, on: Switch, off: Switch, entities: seq<string>,
                                 restrict: Option<string>, events: seq<string>, defs: seq<string>)
    requires Truthy(restrict)
    ensures 3 + |events| < |Expansion(alias, on, off, entities, restrict, events, defs)|
    ensures Expansion(alias, on, off, entities, restrict, events, defs)[3 + |events|].triggers
            == [BasicThing(["platform: state", "entity_id: " + restrict.value, "to: 'on'"])]
  {
    AutoTriggersAt(events, restrict);
    ExpansionReeval(alias, on, off, entities, restrict, events, defs, 1 + |events|);
  }

  /** The automation at index `i` calls `light.turn_on` (index 0),
      `light.turn_off` (index 1) or the templated service (the rest). */
  lemma ExpansionAction(alias: Option<string>, on: Switch, off: Switch, entities: seq<string>,
                        restrict: Option<string>, events: seq<string>, defs: seq<string>, i: nat)
    requires i < |Expansion(alias, on, off, entities, restrict, events, defs)|
    ensures Expansion(alias, on, off, entities, restrict, events, defs)[i].actions ==
      [if i == 0 then LightAction("turn_on", entities)
       else if i == 1 then LightAction("turn_off", entities)
       else ReevalAction(defs, entities)]
  {
  }

  /** Every action of an expansion ends with the full list of entities. */
  lemma ExpansionTargets(alias: Option<string>, on: Switch, off: Switch, entities: seq<string>,
                         restrict: Option<string>, events: seq<string>, defs: seq<string>, i: nat)
    requires i < |Expansion(alias, on, off, entities, restrict, events, defs)|
    ensures |Expansion(alias, on, off, entities, restrict, events, defs)[i].actions| == 1
    ensures var lines := Expansion(alias, on, off, entities, restrict, events, defs)[i].actions[0].args;
      && |lines| >= |entities| + 1
      && lines[|lines| - |entities| - 1] == "  entity_id:"
      && lines[|lines| - |entities|..] == Lights(entities)
  {
    ExpansionAction(alias, on, off, entities, restrict, events, defs, i);
    var pre := if i == 0 then ["service: light." + "turn_on", "data:", "  entity_id:"]
               else if i == 1 then ["service: light." + "turn_off", "data:", "  entity_id:"]
               else ["service_template: >"] + Indent(defs) + ["  light.turn_{{ on_off }}", "data:", "  entity_id:"];
    assert Expansion(alias, on, off, entities, restrict, events, defs)[i].actions[0].args == pre + Lights(entities);
    TargetsLast(pre, entities);
  }

  /** Lines that end with `entity_id:` and the entity list. */
  lemma TargetsLast(pre: seq<string>, entities: seq<string>)
    requires |pre| > 0 && pre[|pre| - 1] == "  entity_id:"
    ensures var lines := pre + Lights(entities);
      && |lines| >= |entities| + 1
      && lines[|lines| - |entities| - 1] == "  entity_id:"
      && lines[|lines| - |entities|..] == Lights(entities)
  {
    var lines := pre + Lights(entities);
    assert lines[|lines| - |entities|..] == Lights(entities);
  }

  /** The loop that builds `auto_triggers`. */
  method CollectAutoTriggers(events: seq<string>, restrict: Option<string>) returns (autos: seq<AutoTrigger>)
    ensures autos == AutoTriggers(events, restrict)
  {
    autos := [Recover];
    var i := 0;
    while i < |events|
      invariant 0 <= i <= |events|
      invariant autos == [Recover] + EventTriggers(events[..i])
    {
      assert EventTriggers(events[..i + 1]) == EventTriggers(events[..i]) + [EventTrigger(events[i])];
      autos := autos + [EventTrigger(events[i])];
      i := i + 1;
    }
    assert events[..i] == events;
    if Truthy(restrict) {
      autos := autos + [RestrictTrigger(restrict.value)];
    }
  }

  /** The loop over `auto_triggers`: one re-evaluation automation each, all
      with the same templated action. */
  method AddReevaluations(automations: seq<Automations.Automation>, alias: Option<string>,
                          autos: seq<AutoTrigger>, conditions: seq<Conditions.Condition>,
                          defs: seq<string>, entities: seq<string>)
    returns (r: seq<Automations.Automation>)
    ensures r == automations + ReevalAutomations(alias, autos, conditions, ReevalAction(defs, entities))
  {
    ghost var action := ReevalAction(defs, entities);
    r := automations;
    var j := 0;
    while j < |autos|
      invariant 0 <= j <= |autos|
      invariant r == automations + ReevalAutomations(alias, autos[..j], conditions, action)
    {
      var actionLines := ["service_template: >"];
      actionLines := actionLines + Indent(defs);
      actionLines := actionLines + ["  light.turn_{{ on_off }}", "data:", "  entity_id:"] + Lights(entities);
      var made := Automations.NewAutomation(Suffixed(alias, autos[j].reason), [], Some(autos[j].trigger),
                                            conditions, None, [BasicThing(actionLines)], None);
      ReevalAutomationBuilt(alias, autos[j], conditions, action);
      assert ReevalAutomations(alias, autos[..j + 1], conditions, action)
          == ReevalAutomations(alias, autos[..j], conditions, action) + [made.value];
      r := r + [made.value];
      j := j + 1;
    }
    assert autos[..j] == autos;
  }

  /** One of the two `if on_sun` / `if off_sun` steps that extend `defs`:
      from the sun time when there is one, else from the clock time. */
  method AppendSwitchDefs(defs: seq<string>, name: string, sw: Switch) returns (r: seq<string>)
    requires ValidSwitch(sw)
    ensures r == defs + SwitchDefs(name, sw)
  {
    match sw {
      case AtSun(sun) =>
        r := defs + [SunDef(name, sun)];
      case AtTime(_, t) =>
        r := defs + ClockDefs(name, t);
    }
  }

  /** The `defs` list. */
  method BuildDefs(on: Switch, off: Switch) returns (defs: seq<string>)
    requires ValidSwitch(on) && ValidSwitch(off)
    ensures defs == Defs(on, off)
  {
    defs := FixedDefs;
    defs := AppendSwitchDefs(defs, "next_on_time", on);
    defs := AppendSwitchDefs(defs, "next_off_time", off);
    defs := defs + [OnOffDef];
  }

  /** The part of `get_automations` after reading the arguments: the
      condition list, the switch-on and switch-off automations, `defs`,
      `auto_triggers` and the re-evaluation automations. */
  method Assemble(alias: Option<string>, on: Switch, off: Switch, entities: seq<string>,
                  restrict: Option<string>, events: seq<string>) returns (automations: seq<Automations.Automation>)
    requires ValidSwitch(on) && ValidSwitch(off)
    ensures automations == Expansion(alias, on, off, entities, restrict, events, Defs(on, off))
  {
    var conditions := [];
    if Truthy(restrict) {
      conditions := conditions + [Conditions.Condition(BasicThing(["condition: state", "entity_id: " + restrict.value, "state: 'on'"]))];
    }
    assert conditions == RestrictConditions(restrict);
    var onAutomation := Automations.NewAutomation(Suffixed(alias, "on"), [], Some(SwitchTrigger(on)), conditions,
                                                  None, [], Some(LightAction("turn_on", entities)));
    var offAutomation := Automations.NewAutomation(Suffixed(alias, "off"), [], Some(SwitchTrigger(off)), conditions,
                                                   None, [], Some(LightAction("turn_off", entities)));
    SwitchAutomationBuilt(alias, "on", on, conditions, LightAction("turn_on", entities));
    SwitchAutomationBuilt(alias, "off", off, conditions, LightAction("turn_off", entities));
    automations := [onAutomation.value, offAutomation.value];
    var defs := BuildDefs(on, off);
    var autos := CollectAutoTriggers(events, restrict);
    automations := AddReevaluations(automations, alias, autos, conditions, defs, entities);
  }

  /** How `get_automations` reads `on` (or `off`): `_calc_time` first, then
      `_calc_sun_time`; `None` where the source reaches `assert False`. */
  method ChooseSwitch(text: string) returns (sw: Option<Switch>)
    ensures sw == ReadSwitch(text)
  {
    var time := CalcTime(text);
    var sun := CalcSunTime(text);
    if time.Some? {
      sw := Some(AtTime(text, time.value));
    } else if sun.Some? {
      sw := Some(AtSun(sun.value));
    } else {
      sw := None;
    }
  }

  /** `get_automations`. */
  method GetAutomations(req: Request) returns (r: Result<seq<Automations.Automation>>)
    ensures r == Expand(req)
  {
    var entities: seq<string>;
    if |req.entities| > 0 {
      entities := req.entities;
    } else if req.entity.Some? {
      entities := [req.entity.value];
    } else {
      return Err(KeyError("entity"));
    }
    assert Entities(req) == Ok(entities);
    var on := ChooseSwitch(req.on);
    if on.None? {
      return Err(AssertionError);
    }
    var off := ChooseSwitch(req.off);
    if off.None? {
      return Err(AssertionError);
    }
    var automations := Assemble(req.alias, on.value, off.value, entities, req.restrict, req.events);
    return Ok(automations);
  }
}
