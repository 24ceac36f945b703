/**
  The FIFO wait queue every process works on (DESMO-J's ProcessQueue, whose own source is not part of
  this model). The model assumes the queue behaves as a sequence: `insert` appends, `first` reads the
  head, `isEmpty` compares with the empty sequence, and `remove(x)` deletes the first occurrence of x,
  leaving a queue that does not hold x as it was.
*/
module WaitQueue {

  datatype Option<+T> = None | Some(value: T)

  /** ProcessQueue.remove(x). */
  function Remove<T(==)>(q: seq<T>, x: T): (r: seq<T>)
    ensures x !in q ==> r == q
    ensures x in q ==> |r| == |q| - 1
    ensures q != [] && q[0] == x ==> r == q[1..]
  {
    if q == [] then []
    else
      if q[0] == x then q[1..]
      else
        assert q == [q[0]] + q[1..];
        assert x in q <==> x in q[1..];
        [q[0]] + Remove(q[1..], x)
  }

  /** A process is parked in a queue at most once. */
  predicate NoDuplicates<T(==)>(q: seq<T>)
  {
    forall i, j :: 0 <= i < j < |q| ==> q[i] != q[j]
  }
}
