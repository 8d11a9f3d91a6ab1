// The linked stack. Nodes are written once, when they are pushed.

module LinkedStack {

  class StackNode<T> {
    const prev: StackNode?<T>
    const data: T
    ghost const depth: nat

    constructor (data: T, prev: StackNode?<T>)
      ensures this.data == data && this.prev == prev
      ensures depth == if prev == null then 0 else prev.depth + 1
    {
      this.data := data;
      this.prev := prev;
      this.depth := if prev == null then 0 else prev.depth + 1;
    }
  }

  ghost predicate WellFounded<T>(node: StackNode?<T>)
    decreases if node == null then 0 else node.depth + 1
  {
    node == null || node.prev == null || (node.prev.depth < node.depth && WellFounded(node.prev))
  }

  // The values from this node down, topmost first.
  ghost function Chain<T>(node: StackNode?<T>): seq<T>
    requires WellFounded(node)
    decreases if node == null then 0 else node.depth + 1
  {
    if node == null then []
    else if node.prev == null then [node.data]
    else [node.data] + Chain(node.prev)
  }

  class Stack<T> {
    var top: StackNode?<T>

    ghost predicate Valid()
      reads this
    {
      WellFounded(top)
    }

    ghost function Contents(): seq<T>
      requires Valid()
      reads this
    {
      Chain(top)
    }

    constructor ()
      ensures Valid() && Contents() == []
    {
      top := null;
    }

    method Push(val: T)
      requires Valid()
      modifies this
      ensures Valid() && Contents() == [val] + old(Contents())
    {
      top := new StackNode(val, top);
    }

    // The source dereferences `top`, so the stack must hold something.
    method Pop() returns (val: T)
      requires Valid() && Contents() != []
      modifies this
      ensures Valid() && [val] + Contents() == old(Contents())
    {
      val := top.data;
      top := top.prev;
    }

    method IsEmpty() returns (empty: bool)
      requires Valid()
      ensures empty <==> Contents() == []
    {
      empty := top == null;
    }

    method Empty()
      requires Valid()
      modifies this
      ensures Valid() && Contents() == []
    {
      while top != null
        invariant Valid()
        decreases |Contents()|
      {
        top := top.prev;
      }
    }
  }
}
