/** RxJS subjects reduced to what the services observe of them: a BehaviorSubject is its
    initial value and the values pushed into it with `next`, in order. */
module Rx {

  datatype Behavior<T> = Behavior(initial: T, emitted: seq<T>) {

    /** `subject.value`: the last value pushed, or the initial value when nothing was. */
    function Value(): T {
      if emitted == [] then initial else emitted[|emitted| - 1]
    }

    /** `subject.next(x)`: the value is replaced wholesale by `x`, and one emission is logged. */
    function Next(x: T): (b: Behavior<T>)
      ensures b.Value() == x
      ensures b.initial == initial && b.emitted == emitted + [x]
    {
      Behavior(initial, emitted + [x])
    }
  }

  /** A fresh BehaviorSubject holds its initial value and has emitted nothing. */
  function Create<T>(x: T): (b: Behavior<T>)
    ensures b.Value() == x && b.emitted == []
  {
    Behavior(x, [])
  }
}
