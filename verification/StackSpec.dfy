/** The sequential LIFO stack, and the concurrent object whose operations each take effect
    in one step between their call and their return. */
module StackSpec {
  import opened Memory
  import opened Runs

  datatype Call = Push(v: Value) | Pop
  datatype Result = Pushed | Popped(v: Option<Value>) | Refused
  datatype Op = Ready | Called(call: Call) | Finished(result: Result)

  /** `stack` is bottom first; `ops` has one entry a thread. */
  datatype Object = Object(stack: seq<Value>, ops: seq<Op>)

  /** The object that threads with locals `th` make of a stack of `vals`. */
  function Seen<L>(vals: seq<Value>, th: seq<L>, op: L -> Op): Object {
    Object(vals, seq(|th|, t requires 0 <= t < |th| => op(th[t])))
  }

  lemma SeenAt<L>(vals: seq<Value>, th: seq<L>, op: L -> Op, t: Tid, l: L)
    requires t < |th|
    ensures |Seen(vals, th, op).ops| == |th| && Seen(vals, th, op).ops[t] == op(th[t])
    ensures Seen(vals, th[t := l], op).ops == Seen(vals, th, op).ops[t := op(l)]
    ensures op(l) == op(th[t]) ==> Seen(vals, th[t := l], op) == Seen(vals, th, op)
  {
  }

  /** What one atomic push or pop does to a sequential stack. */
  ghost predicate Effect(call: Call, before: seq<Value>, after: seq<Value>, result: Result) {
    match call
    case Push(v) => after == before + [v] && result == Pushed
    case Pop =>
      if before == [] then after == before && result == Popped(None)
      else after == before[..|before| - 1] && result == Popped(Some(before[|before| - 1]))
  }

  ghost predicate Begins(o: Object, o': Object, t: Tid, call: Call) {
    t < |o.ops| && o.ops[t] == Ready && o' == o.(ops := o.ops[t := Called(call)])
  }

  ghost predicate TakesEffect(o: Object, o': Object, t: Tid) {
    && t < |o.ops| && t < |o'.ops| && o.ops[t].Called? && o'.ops[t].Finished?
    && o'.ops == o.ops[t := o'.ops[t]]
    && Effect(o.ops[t].call, o.stack, o'.stack, o'.ops[t].result)
  }

  /** A pop that gives up with an error and leaves the stack alone. */
  ghost predicate Refuses(o: Object, o': Object, t: Tid) {
    t < |o.ops| && o.ops[t] == Called(Pop) && o' == o.(ops := o.ops[t := Finished(Refused)])
  }

  ghost predicate Returns(o: Object, o': Object, t: Tid) {
    t < |o.ops| && o.ops[t].Finished? && o' == o.(ops := o.ops[t := Ready])
  }

  /** One step of thread t on the atomic object: the call it is given, or else its operation takes
      effect, is refused or returns, or nothing happens. */
  ghost predicate StepBy(o: Object, o': Object, t: Tid, call: Option<Call>) {
    match call
    case Some(c) => Begins(o, o', t, c)
    case None => o' == o || TakesEffect(o, o', t) || Refuses(o, o', t) || Returns(o, o', t)
  }

  ghost predicate Steps(o: Object, o': Object) {
    exists t, call :: StepBy(o, o', t, call)
  }

  ghost predicate Start(o: Object) {
    o.stack == [] && forall t :: 0 <= t < |o.ops| ==> o.ops[t] == Ready
  }

  /** A history of the atomic object. */
  ghost predicate History(h: seq<Object>) {
    IsRun(h, Start, Steps)
  }
}
