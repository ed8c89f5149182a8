/** condition.py: a plain `Condition` prints its own lines; a
    `CompositeCondition` prints `condition: <kind>`, `conditions:` and then
    every sub-condition as an element of a YAML list. */
module Conditions {
  import opened Base
  import opened Things

  datatype Condition =
    | Condition(thing: BasicThing)
    | CompositeCondition(kind: string, conditions: seq<Condition>)

  /** `CompositeCondition(kind, conditions)`: the constructor asserts that the
      kind is `"and"` or `"or"`. */
  function NewCompositeCondition(kind: string, conditions: seq<Condition>): (r: Result<Condition>)
    ensures r.Ok? <==> kind == "and" || kind == "or"
    ensures r.Ok? ==> r.value.CompositeCondition? && r.value.kind == kind && r.value.conditions == conditions
    ensures r.Err? ==> r.error == AssertionError
  {
    if kind == "and" || kind == "or" then Ok(CompositeCondition(kind, conditions)) else Err(AssertionError)
  }

  /** The two header lines of a composite condition. */
  function Header(kind: string): seq<string>
  {
    ["condition: " + kind, "conditions:"]
  }

  /** The lines `output()` returns. */
  function Lines(c: Condition): seq<string>
    decreases c
  {
    match c
    case Condition(t) => t.Output()
    case CompositeCondition(kind, subs) =>
      Header(kind) + Concat(Items(seq(|subs|, i requires 0 <= i < |subs| => Lines(subs[i]))))
  }

  /** The lines of each sub-condition, in order. */
  function SubLines(subs: seq<Condition>): (r: seq<seq<string>>)
    ensures |r| == |subs| && forall i :: 0 <= i < |subs| ==> r[i] == Lines(subs[i])
  {
    seq(|subs|, i requires 0 <= i < |subs| => Lines(subs[i]))
  }

  /** `output()`: the header, then each sub-condition's lines as a list item. */
  method Output(c: Condition) returns (lines: seq<string>)
    ensures lines == Lines(c)
    ensures c.Condition? ==> lines == c.thing.args
    ensures c.CompositeCondition? ==> lines[..2] == Header(c.kind)
    decreases c
  {
    match c
    case Condition(t) =>
      lines := t.Output();
    case CompositeCondition(kind, subs) =>
      ghost var blocks := SubLines(subs);
      lines := Header(kind);
      var i := 0;
      while i < |subs|
        invariant 0 <= i <= |subs|
        invariant lines == Header(kind) + Concat(Items(blocks[..i]))
      {
        var sub := Output(subs[i]);
        ItemsSnoc(blocks, i);
        lines := lines + Item(sub);
        i := i + 1;
      }
      assert blocks[..i] == blocks;
  }

  /** The output of a composite condition: the two header lines, then line `j`
      of sub-condition `k`, with the list-item prefix, right after the lines
      of the sub-conditions before `k`; `2 + Σ` sub-condition line counts
      lines in all. */
  lemma CompositeOutputShape(kind: string, subs: seq<Condition>)
    ensures |Lines(CompositeCondition(kind, subs))| == 2 + Sum(Lengths(SubLines(subs)))
    ensures Lines(CompositeCondition(kind, subs))[..2] == ["condition: " + kind, "conditions:"]
    ensures forall k, j :: 0 <= k < |subs| && 0 <= j < |Lines(subs[k])| ==>
              ElementLineAt(Lines(CompositeCondition(kind, subs)), 2, SubLines(subs), k, j)
  {
    var blocks := SubLines(subs);
    assert Lines(CompositeCondition(kind, subs)) == Header(kind) + Concat(Items(blocks)) + [];
    ItemsLength(blocks);
    ItemsLines(Header(kind), blocks, []);
  }
}
