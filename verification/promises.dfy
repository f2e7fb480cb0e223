/**
 * The parts of JavaScript promise semantics the upload pipeline relies on:
 * a promise settles at most once, and `Promise.all` over two promises is
 * fail-fast. Promises are described by the state they end in; the order in
 * which the event loop reaches them is abstracted away.
 */
module Promises {
  import opened Wrappers

  /** One call of the `resolve` or `reject` callback handed to a promise executor. */
  datatype Settlement<T> = Resolve(value: T) | Reject(reason: JsError)

  /** The state a promise ends in. `Pending` means it never settles. */
  datatype PromiseState<T> = Pending | Fulfilled(value: T) | Rejected(reason: JsError)

  /** The state a pending promise moves to on one settlement call. */
  function Outcome<T>(s: Settlement<T>): PromiseState<T> {
    match s
    case Resolve(v) => Fulfilled(v)
    case Reject(e) => Rejected(e)
  }

  /** One call of `resolve`/`reject`: it takes effect only while the promise is pending. */
  function Settle<T>(p: PromiseState<T>, s: Settlement<T>): PromiseState<T> {
    if p.Pending? then Outcome(s) else p
  }

  /** The state after the executor's settlement calls, in the order they were made. */
  function SettleAll<T>(p: PromiseState<T>, calls: seq<Settlement<T>>): PromiseState<T>
    decreases |calls|
  {
    if |calls| == 0 then p else SettleAll(Settle(p, calls[0]), calls[1..])
  }

  /** Once settled, a promise ignores every later `resolve` and `reject`. */
  lemma {:induction false} SettledIsFinal<T>(p: PromiseState<T>, calls: seq<Settlement<T>>)
    requires !p.Pending?
    ensures SettleAll(p, calls) == p
    decreases |calls|
  {
    if |calls| > 0 {
      SettledIsFinal(Settle(p, calls[0]), calls[1..]);
    }
  }

  /** A fresh promise ends in the state chosen by the first settlement call, if any. */
  lemma {:induction false} FirstCallWins<T>(calls: seq<Settlement<T>>)
    ensures |calls| == 0 ==> SettleAll(Pending, calls) == Pending
    ensures |calls| > 0 ==> SettleAll(Pending, calls) == Outcome(calls[0])
  {
    if |calls| > 0 {
      SettledIsFinal(Outcome(calls[0]), calls[1..]);
    }
  }

  /**
   * `Promise.all([p, q])`: fulfilled with both values once both fulfil,
   * rejected as soon as either rejects, even while the other is still pending.
   * When both reject, the reason of the one that rejected first is kept; this
   * model does not track time and keeps `p`'s.
   */
  function All<A, B>(p: PromiseState<A>, q: PromiseState<B>): (r: PromiseState<(A, B)>)
    ensures r.Fulfilled? <==> p.Fulfilled? && q.Fulfilled?
    ensures r.Fulfilled? ==> r.value == (p.value, q.value)
    ensures r.Rejected? <==> p.Rejected? || q.Rejected?
    ensures r.Rejected? ==> (p.Rejected? && r.reason == p.reason) || (q.Rejected? && r.reason == q.reason)
    ensures r.Pending? <==> !p.Rejected? && !q.Rejected? && (p.Pending? || q.Pending?)
  {
    if p.Rejected? then Rejected(p.reason)
    else if q.Rejected? then Rejected(q.reason)
    else if p.Pending? || q.Pending? then Pending
    else Fulfilled((p.value, q.value))
  }
}
