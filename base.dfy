/** Shared vocabulary: optional values, results carrying a Python exception,
    Python truthiness of an optional string, and flattening of line blocks. */
module Base {

  datatype Option<T> = None | Some(value: T)

  /** The exceptions the modelled Python code can raise. */
  datatype PyError =
    | AssertionError
    | KeyError(key: string)

  datatype Result<T> = Ok(value: T) | Err(error: PyError)

  /** Python truthiness of a value that is either `None` or a `str`. */
  predicate Truthy(s: Option<string>)
  {
    s.Some? && s.value != ""
  }

  /** Concatenation of a sequence of blocks, in order (a left fold, so that
      a loop that extends a list block by block keeps it as an invariant). */
  function Concat<T>(blocks: seq<seq<T>>): seq<T>
  {
    if blocks == [] then [] else Concat(blocks[..|blocks| - 1]) + blocks[|blocks| - 1]
  }

  function Sum(ns: seq<nat>): nat
  {
    if ns == [] then 0 else Sum(ns[..|ns| - 1]) + ns[|ns| - 1]
  }

  /** The lengths of the blocks, block by block. */
  function Lengths<T>(blocks: seq<seq<T>>): (r: seq<nat>)
    ensures |r| == |blocks|
    ensures forall i :: 0 <= i < |blocks| ==> r[i] == |blocks[i]|
  {
    seq(|blocks|, i requires 0 <= i < |blocks| => |blocks[i]|)
  }

  lemma {:induction false} ConcatLength<T>(blocks: seq<seq<T>>)
    ensures |Concat(blocks)| == Sum(Lengths(blocks))
  {
    if blocks != [] {
      var n := |blocks| - 1;
      ConcatLength(blocks[..n]);
      assert Lengths(blocks)[..n] == Lengths(blocks[..n]);
    }
  }

  lemma {:induction false} ConcatAppend<T>(a: seq<seq<T>>, b: seq<seq<T>>)
    ensures Concat(a + b) == Concat(a) + Concat(b)
  {
    if b == [] {
      assert a + b == a;
    } else {
      var n := |b| - 1;
      assert (a + b)[..|a + b| - 1] == a + b[..n];
      ConcatAppend(a, b[..n]);
    }
  }

  lemma {:induction false} SumAppend(a: seq<nat>, b: seq<nat>)
    ensures Sum(a + b) == Sum(a) + Sum(b)
  {
    if b == [] {
      assert a + b == a;
    } else {
      var n := |b| - 1;
      assert (a + b)[..|a + b| - 1] == a + b[..n];
      SumAppend(a, b[..n]);
    }
  }

  /** Line `j` of block `k` sits in the concatenation right after all the
      lines of the blocks before `k`. */
  lemma {:induction false} ConcatIndex<T>(blocks: seq<seq<T>>, k: nat, j: nat)
    requires k < |blocks| && j < |blocks[k]|
    ensures |Concat(blocks[..k])| + j < |Concat(blocks)|
    ensures Concat(blocks)[|Concat(blocks[..k])| + j] == blocks[k][j]
  {
    var n := |blocks| - 1;
    if k == n {
      assert blocks[..n] == blocks[..k];
    } else {
      ConcatIndex(blocks[..n], k, j);
      assert blocks[..n][..k] == blocks[..k];
    }
  }

  /** The last line of block `k` sits in the concatenation right before the
      lines of the blocks after `k`. */
  lemma ConcatBlockEnd<T>(blocks: seq<seq<T>>, k: nat)
    requires k < |blocks| && |blocks[k]| > 0
    ensures 0 < |Concat(blocks[..k + 1])| <= |Concat(blocks)|
    ensures Concat(blocks)[|Concat(blocks[..k + 1])| - 1] == blocks[k][|blocks[k]| - 1]
  {
    ConcatIndex(blocks, k, |blocks[k]| - 1);
    assert blocks[..k + 1][..k] == blocks[..k];
  }

  /** Every element of a concatenation comes from one of its blocks. */
  lemma {:induction false} InConcat<T>(blocks: seq<seq<T>>, x: T)
    requires x in Concat(blocks)
    ensures exists k :: 0 <= k < |blocks| && x in blocks[k]
  {
    var n := |blocks| - 1;
    if x in Concat(blocks[..n]) {
      InConcat(blocks[..n], x);
      var k :| 0 <= k < n && x in blocks[..n][k];
      assert x in blocks[k];
    } else {
      assert x in blocks[n];
    }
  }

  /** Number of occurrences of `x` in `s`. */
  function Count<T(==)>(s: seq<T>, x: T): nat
  {
    if s == [] then 0 else Count(s[..|s| - 1], x) + (if s[|s| - 1] == x then 1 else 0)
  }

  lemma {:induction false} CountAppend<T>(a: seq<T>, b: seq<T>, x: T)
    ensures Count(a + b, x) == Count(a, x) + Count(b, x)
  {
    if b == [] {
      assert a + b == a;
    } else {
      var n := |b| - 1;
      assert (a + b)[..|a + b| - 1] == a + b[..n];
      CountAppend(a, b[..n], x);
    }
  }

  lemma CountOne<T>(x: T, y: T)
    ensures Count([x], y) == if x == y then 1 else 0
  {
    assert [x][..0] == [];
  }

  lemma {:induction false} CountAbsent<T>(s: seq<T>, x: T)
    requires x !in s
    ensures Count(s, x) == 0
  {
    if s != [] {
      CountAbsent(s[..|s| - 1], x);
    }
  }
}
