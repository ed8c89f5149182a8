/** `BasicThing` of automation.py: a record that prints as the lines it was
    built from. Triggers and actions are modelled the same way; trigger.py
    and action.py are not part of this model. */
module Things {
  import opened Base

  datatype BasicThing = BasicThing(args: seq<string>)
  {
    /** `output()` hands back the constructor arguments, in order. */
    function Output(): seq<string>
    {
      args
    }
  }

  type Trigger = BasicThing
  type Action = BasicThing

  /** The rendering of one element of a YAML list: its first line is
      prefixed `"  - "`, every later line four spaces. */
  function Item(lines: seq<string>): seq<string>
  {
    seq(|lines|, i requires 0 <= i < |lines| => (if i == 0 then "  - " else "    ") + lines[i])
  }

  /** The items of consecutive list elements, in order. */
  function Items(blocks: seq<seq<string>>): seq<seq<string>>
  {
    seq(|blocks|, i requires 0 <= i < |blocks| => Item(blocks[i]))
  }

  /** Every rendered item line starts with `"  - "` or with four spaces. */
  predicate Indented(line: string)
  {
    |line| >= 4 && line[..2] == "  " && (line[2..4] == "- " || line[2..4] == "  ")
  }

  /** Line `j` of an element printed as a list item, whose first line sits at
      index `start` of `lines`. */
  predicate ItemLineAt(lines: seq<string>, start: int, element: seq<string>, j: int)
    requires 0 <= j < |element|
  {
    0 <= start && start + j < |lines| &&
    lines[start + j] == (if j == 0 then "  - " else "    ") + element[j]
  }

  /** Line `j` of list element `k`, where the elements `blocks` are printed
      one after another from index `start` of `lines`: it sits after all the
      lines of the elements before `k`. */
  predicate ElementLineAt(lines: seq<string>, start: nat, blocks: seq<seq<string>>, k: int, j: int)
    requires 0 <= k < |blocks| && 0 <= j < |blocks[k]|
  {
    ItemLineAt(lines, start + |Concat(blocks[..k])|, blocks[k], j)
  }

  /** Printing blocks as list items keeps their line counts. */
  lemma ItemsLength(blocks: seq<seq<string>>)
    ensures |Concat(Items(blocks))| == Sum(Lengths(blocks))
    ensures forall k :: 0 <= k <= |blocks| ==> |Concat(Items(blocks[..k]))| == |Concat(blocks[..k])|
  {
    assert Lengths(Items(blocks)) == Lengths(blocks);
    ConcatLength(Items(blocks));
    forall k | 0 <= k <= |blocks|
      ensures |Concat(Items(blocks[..k]))| == |Concat(blocks[..k])|
    {
      assert Lengths(Items(blocks[..k])) == Lengths(blocks[..k]);
      ConcatLength(Items(blocks[..k]));
      ConcatLength(blocks[..k]);
    }
  }

  /** Inside `pre + Concat(Items(blocks)) + post`, every line of every block
      appears, in order, with its list-item prefix. */
  lemma ItemsLines(pre: seq<string>, blocks: seq<seq<string>>, post: seq<string>)
    ensures forall k, j :: 0 <= k < |blocks| && 0 <= j < |blocks[k]| ==>
              ElementLineAt(pre + Concat(Items(blocks)) + post, |pre|, blocks, k, j)
  {
    var items := Items(blocks);
    var lines := pre + Concat(items) + post;
    ItemsLength(blocks);
    forall k, j | 0 <= k < |blocks| && 0 <= j < |blocks[k]|
      ensures ElementLineAt(lines, |pre|, blocks, k, j)
    {
      ConcatIndex(items, k, j);
      assert items[..k] == Items(blocks[..k]);
    }
  }

  /** Every line of a sequence of list items is indented. */
  lemma ItemsIndented(blocks: seq<seq<string>>)
    ensures forall line :: line in Concat(Items(blocks)) ==> Indented(line)
  {
    forall line | line in Concat(Items(blocks))
      ensures Indented(line)
    {
      InConcat(Items(blocks), line);
    }
  }

  /** Appending one more list element extends the rendering by its item. */
  lemma ItemsSnoc(blocks: seq<seq<string>>, i: nat)
    requires i < |blocks|
    ensures Concat(Items(blocks[..i + 1])) == Concat(Items(blocks[..i])) + Item(blocks[i])
  {
    assert Items(blocks[..i + 1]) == Items(blocks[..i]) + [Item(blocks[i])];
  }
}
