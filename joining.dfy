/** Concatenation of text fragments, the one operation the stored body is built from. */
module Joining {
  /** All `parts`, joined in order. */
  function Concat(parts: seq<string>): string
  {
    if parts == [] then "" else parts[0] + Concat(parts[1..])
  }

  /** Concatenation distributes over joining two sequences of parts. */
  lemma {:induction false} ConcatJoin(a: seq<string>, b: seq<string>)
    ensures Concat(a + b) == Concat(a) + Concat(b)
  {
    if a == [] {
      assert a + b == b;
    } else {
      assert (a + b)[1..] == a[1..] + b;
      ConcatJoin(a[1..], b);
    }
  }

  /** Appending one part appends its text. */
  lemma ConcatAppend(parts: seq<string>, p: string)
    ensures Concat(parts + [p]) == Concat(parts) + p
  {
    ConcatJoin(parts, [p]);
    assert [p][1..] == [];
  }

  /** Cutting the parts anywhere cuts the text at the matching place. */
  lemma ConcatSplit(parts: seq<string>, k: nat)
    requires k <= |parts|
    ensures Concat(parts[..k]) + Concat(parts[k..]) == Concat(parts)
  {
    assert parts[..k] + parts[k..] == parts;
    ConcatJoin(parts[..k], parts[k..]);
  }
}
