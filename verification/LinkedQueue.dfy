/** The linked FIFO queue that holds ready and waiting contexts, and the queue of waiters built on it. */
module LinkedQueue {
  import opened Prelude

  class Node<T> {
    var data: T
    var next: Node?<T>

    constructor (value: T)
      ensures data == value && next == null
    {
      data := value;
      next := null;
    }
  }

  class Queue<T> {
    var frontNode: Node?<T>
    var rearNode: Node?<T>
    var queueSize: nat
    ghost var spine: seq<Node<T>>
    ghost var contents: seq<T>

    ghost predicate Valid()
      reads this, spine
    {
      && |spine| == |contents| == queueSize
      && (forall i :: 0 <= i < |spine| ==> spine[i].data == contents[i])
      && (forall i, j :: 0 <= i < j < |spine| && j == i + 1 ==> spine[i].next == spine[j])
      && (|spine| > 0 ==> spine[|spine| - 1].next == null)
      && (forall i, j :: 0 <= i < j < |spine| ==> spine[i] != spine[j])
      && frontNode == (if |spine| > 0 then spine[0] else null)
      && rearNode == (if |spine| > 0 then spine[|spine| - 1] else null)
    }

    constructor ()
      ensures Valid() && contents == [] && spine == []
    {
      frontNode, rearNode, queueSize := null, null, 0;
      spine, contents := [], [];
    }

    method Enqueue(value: T)
      requires Valid()
      modifies this, spine
      ensures Valid() && contents == old(contents) + [value]
      ensures forall n :: n in spine ==> n in old(spine) || fresh(n)
    {
      var newNode := new Node<T>(value);
      if IsEmpty() {
        frontNode, rearNode := newNode, newNode;
      } else {
        rearNode.next := newNode;
        rearNode := newNode;
      }
      queueSize := queueSize + 1;
      spine, contents := spine + [newNode], contents + [value];
    }

    /** The source throws on an empty queue. */
    method Dequeue() returns (ok: bool)
      requires Valid()
      modifies this
      ensures Valid() && ok == (old(contents) != [])
      ensures contents == if ok then old(contents)[1..] else []
      ensures forall n :: n in spine ==> n in old(spine)
    {
      if IsEmpty() {
        return false;
      }
      frontNode := frontNode.next;
      queueSize := queueSize - 1;
      spine, contents := spine[1..], contents[1..];
      if IsEmpty() {
        rearNode := null;
      }
      return true;
    }

    method Front() returns (value: Option<T>)
      requires Valid()
      ensures value == if contents == [] then None else Some(contents[0])
    {
      if IsEmpty() {
        return None;
      }
      value := Some(frontNode.data);
    }

    predicate IsEmpty()
      reads this
    {
      queueSize == 0
    }

    method Size() returns (n: nat)
      requires Valid()
      ensures n == |contents|
    {
      n := queueSize;
    }

    /** The destructor's loop gives every node back. */
    method Drain()
      requires Valid()
      modifies this
      ensures Valid() && contents == []
    {
      while !IsEmpty()
        invariant Valid()
        decreases |contents|
      {
        var _ := Dequeue();
      }
    }
  }

  // ----- order -----

  datatype Op<T> = Put(value: T) | Get

  /** The queue after the operations, and what the successful gets returned. */
  function Replay<T>(contents: seq<T>, ops: seq<Op<T>>): (seq<T>, seq<T>)
    decreases |ops|
  {
    if ops == [] then (contents, [])
    else match ops[0]
      case Put(v) => Replay(contents + [v], ops[1..])
      case Get =>
        if contents == [] then Replay(contents, ops[1..])
        else
          var (rest, out) := Replay(contents[1..], ops[1..]);
          (rest, [contents[0]] + out)
  }

  function PutValues<T>(ops: seq<Op<T>>): seq<T> {
    if ops == [] then [] else (if ops[0].Put? then [ops[0].value] else []) + PutValues(ops[1..])
  }

  /** First in, first out, over any run: what came out, followed by what is left, is what was there,
      followed by what was put in. In particular the element at depth k is the (k+1)-th to come out,
      whatever is put in meanwhile. */
  lemma {:induction false} FirstInFirstOut<T>(contents: seq<T>, ops: seq<Op<T>>)
    ensures var (rest, out) := Replay(contents, ops); out + rest == contents + PutValues(ops)
    decreases |ops|
  {
    if ops != [] {
      match ops[0]
      case Put(v) =>
        FirstInFirstOut(contents + [v], ops[1..]);
        assert (contents + [v]) + PutValues(ops[1..]) == contents + PutValues(ops);
      case Get =>
        if contents == [] {
          FirstInFirstOut(contents, ops[1..]);
        } else {
          FirstInFirstOut(contents[1..], ops[1..]);
          var (rest, out) := Replay(contents[1..], ops[1..]);
          assert contents + PutValues(ops) == [contents[0]] + (contents[1..] + PutValues(ops[1..]));
          assert ([contents[0]] + out) + rest == [contents[0]] + (out + rest);
        }
    }
  }

  lemma DepthIsTurn<T>(contents: seq<T>, ops: seq<Op<T>>, k: nat)
    requires k < |contents|
    ensures var (rest, out) := Replay(contents, ops); k < |out| ==> out[k] == contents[k]
  {
    FirstInFirstOut(contents, ops);
    var (rest, out) := Replay(contents, ops);
    if k < |out| {
      assert out[k] == (out + rest)[k] == (contents + PutValues(ops))[k] == contents[k];
    }
  }
}
