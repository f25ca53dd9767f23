/** Assembling a dataset from a per-record synthesizer on the shared stream: the
    records read the stream one after another, and the rows are kept in that
    order, one row per label (or per iteration). */
module Dataset {
  import opened Draws

  /** A class label of a three-class table: 0, 1 or 2. */
  predicate ClassInRange(cls: int)
  {
    0 <= cls <= 2
  }

  /** One row per label, in label order; each record starts reading where the
      previous one stopped. */
  function RowsFor<R>(record: (int, nat) -> Drawn<R>, labels: seq<int>, at: nat): (r: Drawn<seq<R>>)
    ensures |r.value| == |labels|
    decreases |labels|
  {
    if labels == [] then Drawn([], at)
    else
      var prev := RowsFor(record, labels[..|labels| - 1], at);
      var last := record(labels[|labels| - 1], prev.next);
      Drawn(prev.value + [last.value], last.next)
  }

  /** One more label extends the rows by that label's record, read where the others stopped. */
  lemma RowsForSnoc<R>(record: (int, nat) -> Drawn<R>, labels: seq<int>, at: nat, i: nat)
    requires i < |labels|
    ensures var prev := RowsFor(record, labels[..i], at);
            var last := record(labels[i], prev.next);
            RowsFor(record, labels[..i + 1], at) == Drawn(prev.value + [last.value], last.next)
  {
    assert labels[..i + 1][..i] == labels[..i];
  }

  /** Row i is the record of the i-th label, read from where the first i records stopped. */
  lemma {:induction false} RowsForInOrder<R>(record: (int, nat) -> Drawn<R>, labels: seq<int>, at: nat, i: nat)
    requires i < |labels|
    ensures RowsFor(record, labels, at).value[i] == record(labels[i], RowsFor(record, labels[..i], at).next).value
    decreases |labels|
  {
    var n := |labels|;
    var front := labels[..n - 1];
    if i < n - 1 {
      RowsForInOrder(record, front, at, i);
      assert front[..i] == labels[..i];
    } else {
      assert labels[..i] == front;
    }
  }

  /** A property every record has for every label in `allowed` holds of every row. */
  lemma {:induction false} RowsForAll<R>(record: (int, nat) -> Drawn<R>, labels: seq<int>, at: nat,
                                         allowed: int -> bool, good: R -> bool)
    requires forall i :: 0 <= i < |labels| ==> allowed(labels[i])
    requires forall c: int, p: nat :: allowed(c) ==> good(record(c, p).value)
    ensures forall i :: 0 <= i < |labels| ==> good(RowsFor(record, labels, at).value[i])
    decreases |labels|
  {
    if labels != [] {
      RowsForAll(record, labels[..|labels| - 1], at, allowed, good);
    }
  }

  /** n rows from a record that has no label input (a loop over range(n)). */
  function RowsN<R>(record: nat -> Drawn<R>, n: nat, at: nat): (r: Drawn<seq<R>>)
    ensures |r.value| == n
  {
    if n == 0 then Drawn([], at)
    else
      var prev := RowsN(record, n - 1, at);
      var last := record(prev.next);
      Drawn(prev.value + [last.value], last.next)
  }

  /** When every record reads exactly `width` draws, row i starts at at + width * i
      and the n rows read width * n draws. */
  lemma {:induction false} RowsNFixedWidth<R>(record: nat -> Drawn<R>, width: nat, n: nat, at: nat)
    requires forall p: nat :: record(p).next == p + width
    ensures RowsN(record, n, at).next == at + width * n
    ensures forall i :: 0 <= i < n ==> RowsN(record, n, at).value[i] == record(at + width * i).value
  {
    if n > 0 {
      RowsNFixedWidth(record, width, n - 1, at);
      assert at + width * (n - 1) + width == at + width * n;
    }
  }

  lemma {:induction false} RowsNAll<R>(record: nat -> Drawn<R>, n: nat, at: nat, good: R -> bool)
    requires forall p: nat :: good(record(p).value)
    ensures forall i :: 0 <= i < n ==> good(RowsN(record, n, at).value[i])
  {
    if n > 0 {
      RowsNAll(record, n - 1, at, good);
    }
  }
}
