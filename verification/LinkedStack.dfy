/** The linked nodes of a lock-free stack, and what a push and a pop do to them. */
module LinkedStack {
  import opened Memory

  /** The linked nodes are exactly the chain from `head`, and carry `vals`. */
  ghost predicate StackOk<R(!new)>(head: Addr, stack: seq<Addr>, vals: seq<Value>,
                                   nodes: map<Addr, Node>, own: map<Addr, Owner<R>>) {
    && |vals| == |stack| && head == Top(stack)
    && NULL !in nodes && own.Keys == nodes.Keys
    && (forall i :: 0 <= i < |stack| ==>
          && stack[i] in own && own[stack[i]] == Linked(i)
          && nodes[stack[i]].data == Some(vals[i]))
    && (stack != [] ==> nodes[stack[0]].next == NULL)
    && (forall i, j :: 0 <= i && j == i + 1 < |stack| ==> nodes[stack[j]].next == stack[i])
    && (forall a {:trigger own[a].Linked?} :: a in own && own[a].Linked? ==>
          own[a].i < |stack| && stack[own[a].i] == a)
  }

  lemma PushStack<R(!new)>(head: Addr, stack: seq<Addr>, vals: seq<Value>,
                           nodes: map<Addr, Node>, own: map<Addr, Owner<R>>, a: Addr, v: Value)
    requires StackOk(head, stack, vals, nodes, own)
    requires a in own && !own[a].Linked? && nodes[a] == Node(Some(v), head)
    ensures StackOk(a, stack + [a], vals + [v], nodes, own[a := Linked(|stack|)])
  {
  }

  lemma PopStack<R(!new)>(head: Addr, stack: seq<Addr>, vals: seq<Value>,
                          nodes: map<Addr, Node>, own: map<Addr, Owner<R>>, o: Owner<R>)
    requires StackOk(head, stack, vals, nodes, own)
    requires head != NULL && !o.Linked?
    ensures stack != [] && head in own && own[head] == Linked(|stack| - 1)
    ensures nodes[head].data == Some(vals[|stack| - 1])
    ensures StackOk(nodes[head].next, stack[..|stack| - 1], vals[..|stack| - 1], nodes, own[head := o])
  {
  }

  /** A node that is not linked can be written. */
  lemma WriteStack<R(!new)>(head: Addr, stack: seq<Addr>, vals: seq<Value>,
                            nodes: map<Addr, Node>, own: map<Addr, Owner<R>>, a: Addr, n: Node, o: Owner<R>)
    requires StackOk(head, stack, vals, nodes, own)
    requires a != NULL && (a in own ==> !own[a].Linked?) && !o.Linked?
    ensures StackOk(head, stack, vals, nodes[a := n], own[a := o])
  {
  }

  /** The values are the data of the nodes linked from `head`, top last. */
  ghost predicate IsLinked(nodes: map<Addr, Node>, head: Addr, vals: seq<Value>)
    decreases |vals|
  {
    if vals == [] then head == NULL
    else
      && head != NULL && head in nodes && nodes[head].data == Some(vals[|vals| - 1])
      && IsLinked(nodes, nodes[head].next, vals[..|vals| - 1])
  }

  lemma {:induction false} StackIsLinked<R(!new)>(head: Addr, stack: seq<Addr>, vals: seq<Value>,
                                                  nodes: map<Addr, Node>, own: map<Addr, Owner<R>>)
    requires StackOk(head, stack, vals, nodes, own)
    ensures IsLinked(nodes, head, vals)
    decreases |stack|
  {
    if head != NULL {
      PopStack(head, stack, vals, nodes, own, Hand(0));
      StackIsLinked(nodes[head].next, stack[..|stack| - 1], vals[..|vals| - 1], nodes, own[head := Hand(0)]);
    }
  }
}
