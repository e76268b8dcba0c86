/** The bounded FIFO queue, and the concurrent object whose operations each take effect in one
    step between their call and their return, or are declined without effect. */
module QueueSpec {
  import opened Memory
  import opened Runs

  /** A call that waits blocks instead of being declined. */
  datatype Call = Put(v: Value, waits: bool) | Take(waits: bool)
  datatype Result = Accepted | Got(v: Value) | Declined
  datatype Op = Ready | Called(call: Call) | Finished(result: Result)

  /** `queue` is oldest first; `ops` has one entry a thread. */
  datatype Object = Object(capacity: nat, queue: seq<Value>, ops: seq<Op>)

  ghost predicate Begins(o: Object, o': Object, t: Tid, call: Call) {
    t < |o.ops| && o.ops[t] == Ready && o' == o.(ops := o.ops[t := Called(call)])
  }

  /** A put appends its value to a queue that is not full; a take removes and gets the oldest. */
  ghost predicate TakesEffect(o: Object, o': Object, t: Tid) {
    t < |o.ops| && o.ops[t].Called? &&
    match o.ops[t].call
    case Put(v, _) =>
      && |o.queue| < o.capacity
      && o' == o.(queue := o.queue + [v], ops := o.ops[t := Finished(Accepted)])
    case Take(_) =>
      && o.queue != []
      && o' == o.(queue := o.queue[1..], ops := o.ops[t := Finished(Got(o.queue[0]))])
  }

  /** Thread u has put or taken a value and has not yet returned. */
  predicate Leaving(o: Object, u: Tid, put: bool) {
    u < |o.ops| && o.ops[u].Finished? && if put then o.ops[u].result == Accepted else o.ops[u].result.Got?
  }

  /** A put may be declined when the queue is full or a take is leaving; a take when the queue
      is empty or a put is leaving. */
  ghost predicate MayDecline(o: Object, call: Call) {
    match call
    case Put(_, _) => |o.queue| == o.capacity || exists u :: Leaving(o, u, false)
    case Take(_) => o.queue == [] || exists u :: Leaving(o, u, true)
  }

  ghost predicate Declines(o: Object, o': Object, t: Tid) {
    && t < |o.ops| && o.ops[t].Called? && !o.ops[t].call.waits && MayDecline(o, o.ops[t].call)
    && o' == o.(ops := o.ops[t := Finished(Declined)])
  }

  ghost predicate Returns(o: Object, o': Object, t: Tid) {
    t < |o.ops| && o.ops[t].Finished? && o' == o.(ops := o.ops[t := Ready])
  }

  /** One step of thread t on the atomic queue: the call it is given, or else its operation takes
      effect, is declined or returns, or nothing happens. */
  ghost predicate StepBy(o: Object, o': Object, t: Tid, call: Option<Call>) {
    match call
    case Some(c) => Begins(o, o', t, c)
    case None => o' == o || TakesEffect(o, o', t) || Declines(o, o', t) || Returns(o, o', t)
  }

  ghost predicate Steps(o: Object, o': Object) {
    exists t, call :: StepBy(o, o', t, call)
  }

  ghost predicate Start(o: Object) {
    o.queue == [] && forall t :: 0 <= t < |o.ops| ==> o.ops[t] == Ready
  }

  /** A history of the atomic queue. */
  ghost predicate History(h: seq<Object>) {
    IsRun(h, Start, Steps)
  }

  /** Thread t does not return between states m and n. */
  ghost predicate InOneCall(h: seq<Object>, m: nat, n: nat, t: Tid) {
    m <= n < |h| && forall k :: m <= k <= n ==> t < |h[k].ops| && h[k].ops[t] != Ready
  }

  lemma StepsOnCall(o: Object, o': Object, t: Tid, call: Call)
    requires Steps(o, o') && t < |o.ops| && t < |o'.ops| && o.ops[t] == Called(call) && call.waits
    ensures o'.ops[t] == Called(call) || o'.ops[t].Finished?
    ensures o'.ops[t].Finished? ==> if call.Put? then o'.ops[t].result == Accepted else o'.ops[t].result.Got?
  {
    var u, c :| StepBy(o, o', u, c);
  }

  lemma StepsOnResult(o: Object, o': Object, t: Tid)
    requires Steps(o, o') && t < |o.ops| && t < |o'.ops| && o.ops[t].Finished?
    ensures o'.ops[t] in {o.ops[t], Ready}
  {
    var u, c :| StepBy(o, o', u, c);
  }

  /** A call that waits is never declined: until it returns it is still that call, or has been
      accepted, or has got a value. */
  lemma {:induction false} NeverDeclined(h: seq<Object>, m: nat, n: nat, t: Tid, call: Call)
    requires History(h) && InOneCall(h, m, n, t) && h[m].ops[t] == Called(call) && call.waits
    ensures h[n].ops[t] == Called(call) || h[n].ops[t].Finished?
    ensures h[n].ops[t].Finished? ==> if call.Put? then h[n].ops[t].result == Accepted else h[n].ops[t].result.Got?
  {
    if m < n {
      NeverDeclined(h, m, n - 1, t, call);
      StepAt(h, Start, Steps, n - 1);
      if h[n - 1].ops[t].Called? {
        StepsOnCall(h[n - 1], h[n], t, call);
      } else {
        StepsOnResult(h[n - 1], h[n], t);
      }
    }
  }
}
