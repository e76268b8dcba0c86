/** Addresses, nodes and the pointer-linked lists that both lock-free stacks share. */
module Memory {
  datatype Option<+T> = None | Some(value: T)

  type Tid = nat
  type Value = int

  /** A heap address; 0 is the null pointer. */
  type Addr = nat
  const NULL: Addr := 0

  /** A stack node. `data` is a shared pointer: None once it has been swapped out. */
  datatype Node = Node(data: Option<Value>, next: Addr)

  /** Who holds an allocated stack node: the thread that has not yet pushed it, the stack, where
      it is entry i from the bottom, the thread that popped it, or a place for retired nodes. */
  datatype Owner<R> = Private(t: Tid) | Linked(i: nat) | Hand(t: Tid) | Retired(place: R)

  /** Lists are written bottom first: `next` of entry i + 1 points at entry i. */
  function Top(list: seq<Addr>): Addr {
    if list == [] then NULL else list[|list| - 1]
  }
}
