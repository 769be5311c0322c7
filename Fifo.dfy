/** `Log4js.FifoBuffer`: the array-backed queue the AJAX appender batches events in. */
module Fifo {
  import opened Wrappers

  class FifoBuffer<T> {
    /** The backing array, oldest element first. */
    var elements: seq<T>

    constructor()
      ensures elements == []
    {
      elements := [];
    }

    /** `length()`. */
    function Length(): nat
      reads this
    {
      |elements|
    }

    /** `push(obj)`: writes `obj` into the slot after the last one and returns the
        new length. */
    method Push(x: T) returns (n: nat)
      modifies this
      ensures elements == old(elements) + [x]
      ensures n == |elements| == |old(elements)| + 1
    {
      elements := elements + [x];
      n := |elements|;
    }

    /** `pull()`: on a non-empty buffer, keeps the first element, shifts every
        other one a slot to the left, then shortens the array by one; `null` on
        an empty buffer. */
    method Pull() returns (r: Option<T>)
      modifies this
      ensures old(elements) == [] ==> r == None && elements == []
      ensures old(elements) != [] ==> r == Some(old(elements)[0]) && elements == old(elements)[1..]
    {
      if |elements| > 0 {
        var first := elements[0];
        var i := 0;
        while i < |elements| - 1
          invariant 0 <= i <= |elements| - 1
          invariant |elements| == |old(elements)|
          invariant forall k :: 0 <= k < i ==> elements[k] == old(elements)[k + 1]
          invariant forall k :: i <= k < |elements| ==> elements[k] == old(elements)[k]
        {
          elements := elements[i := elements[i + 1]];
          i := i + 1;
        }
        elements := elements[..|elements| - 1];
        r := Some(first);
      } else {
        r := None;
      }
    }
  }

  /** Two pushes then three pulls on a new buffer give back the elements in the
      order they went in, then `null`. */
  method FirstInFirstOut<T>(a: T, b: T) returns (first: Option<T>, second: Option<T>, third: Option<T>)
    ensures first == Some(a) && second == Some(b) && third == None
  {
    var buffer := new FifoBuffer<T>();
    var n := buffer.Push(a);
    n := buffer.Push(b);
    first := buffer.Pull();
    second := buffer.Pull();
    third := buffer.Pull();
  }
}
