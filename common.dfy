/** Small helper datatypes shared by the whole model. */
module Common {

  datatype Option<+T> = None | Some(value: T)

  /** Regrouping concatenations, stated once so that proofs about long
      traces and messages need not look inside their parts. */
  lemma Assoc<T>(a: seq<T>, b: seq<T>, c: seq<T>)
    ensures a + b + c == a + (b + c)
  {
  }

  lemma AppendAssoc<T>(a: seq<T>, b: seq<T>, c: seq<T>, d: seq<T>)
    ensures a + b + c + d == a + (b + (c + d))
  {
  }

  /** Concatenation of a sequence of sequences, in order. */
  function Concat<T>(parts: seq<seq<T>>): seq<T>
  {
    if parts == [] then [] else Concat(parts[..|parts| - 1]) + parts[|parts| - 1]
  }

  lemma {:induction false} ConcatAppend<T>(parts: seq<seq<T>>, more: seq<seq<T>>)
    ensures Concat(parts + more) == Concat(parts) + Concat(more)
    decreases |more|
  {
    if more == [] {
      assert parts + more == parts;
    } else {
      var init, last := more[..|more| - 1], more[|more| - 1];
      assert (parts + more)[..|parts + more| - 1] == parts + init;
      assert (parts + more)[|parts + more| - 1] == last;
      assert Concat(parts + more) == Concat(parts + init) + last;
      ConcatAppend(parts, init);
      Assoc(Concat(parts), Concat(init), last);
    }
  }

  lemma {:induction false} ConcatCons<T>(head: seq<T>, parts: seq<seq<T>>)
    ensures Concat([head] + parts) == head + Concat(parts)
  {
    ConcatAppend([head], parts);
    assert Concat([head]) == Concat([]) + head;
  }
}
