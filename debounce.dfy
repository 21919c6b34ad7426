/** The hand-written debouncer of src/utils.ts (the same code is in
    src/utils.js). Its closure variables `minTo`, `maxTo`, `flushFn` and
    `active` become fields. A timer is the argument list it was armed with;
    the host's clock fires it by calling `FireMin` or `FireMax`. A method
    that would invoke `fn` returns the arguments to invoke it with, and the
    owner runs `fn` after the method returns. So a call made from inside
    `fn` reaches a debouncer whose `run` has already cleared it. */
module Debounce {
  import opened Js

  class Debouncer<A> {
    /** The quiet period `min`. Timers fire as events, so it is only kept. */
    const min: Value
    /** The `maxWait` option. A ceiling timer is armed only when it is truthy. */
    const maxWait: Value
    /** The pending `setTimeout(run, min, ...args)`, if any. */
    var minTimer: Option<A>
    /** The pending `setTimeout(run, maxWait, ...args)`, if any. */
    var maxTimer: Option<A>
    /** `flushFn = () => fn(...args)`, as the arguments it closes over. */
    var flushArgs: Option<A>
    var active: bool
    /** The arguments of every call since the last `clear`, oldest first. */
    ghost var burst: seq<A>

    ghost predicate Valid()
      reads this
    {
      && flushArgs == minTimer
      && (burst == [] <==> minTimer.None?)
      && (burst != [] ==> minTimer == Some(burst[|burst| - 1]))
      && (active <==> maxTimer.Some?)
      && (maxTimer.Some? ==> burst != [])
      && (active ==> Truthy(maxWait))
      && (Truthy(maxWait) && burst != [] ==> maxTimer == Some(burst[0]))
      && (!Truthy(maxWait) ==> maxTimer.None?)
    }

    /** Nothing is waiting: no timer, no flush function, not active. */
    predicate Idle()
      reads this
    {
      minTimer.None? && maxTimer.None? && flushArgs.None? && !active
    }

    /** `debounce(fn, min, { maxWait })` */
    constructor (min: Value, maxWait: Value)
      ensures Valid() && Idle() && burst == []
      ensures this.min == min && this.maxWait == maxWait
    {
      this.min := min;
      this.maxWait := maxWait;
      minTimer, maxTimer, flushArgs, active := None, None, None, false;
      burst := [];
    }

    /** The debounced function: re-arms the quiet-period timer with the
        latest arguments, arms the ceiling timer with these arguments only
        when no burst is active and `maxWait` is truthy, and points
        `flushFn` at the latest arguments. */
    method Call(args: A)
      requires Valid()
      modifies this
      ensures Valid()
      ensures burst == old(burst) + [args]
      ensures minTimer == Some(args) && flushArgs == Some(args)
      ensures maxTimer == (if !old(active) && Truthy(maxWait) then Some(args) else old(maxTimer))
      ensures active == (old(active) || Truthy(maxWait))
    {
      minTimer := Some(args);
      if !active && Truthy(maxWait) {
        maxTimer := Some(args);
        active := true;
      }
      flushArgs := Some(args);
      burst := burst + [args];
    }

    /** `clear()`: both timers cancelled, not active, no flush function. */
    method Clear()
      requires Valid()
      modifies this
      ensures Valid() && Idle() && burst == []
    {
      minTimer, maxTimer, active, flushArgs := None, None, false, None;
      burst := [];
    }

    /** The quiet-period timer fires `run(...args)`: everything is cleared
        first, then `fn` is to run with the latest call's arguments. */
    method FireMin() returns (args: A)
      requires Valid() && minTimer.Some?
      modifies this
      ensures Valid() && Idle() && burst == []
      ensures args == old(minTimer).value
      ensures args == old(burst)[|old(burst)| - 1]
    {
      args := minTimer.value;
      Clear();
    }

    /** The ceiling timer fires `run(...args)`: everything is cleared first,
        then `fn` is to run with the FIRST call's arguments of the burst. */
    method FireMax() returns (args: A)
      requires Valid() && maxTimer.Some?
      modifies this
      ensures Valid() && Idle() && burst == []
      ensures args == old(maxTimer).value
      ensures args == old(burst)[0]
    {
      args := maxTimer.value;
      Clear();
    }

    /** `flush()`: when a call is pending, `fn` is to run now with its
        latest arguments (its result is what `flush` returns); otherwise
        `flush` returns `null`. Neither timer is cancelled and `flushFn` is
        kept, so a pending timer still fires later. */
    method Flush() returns (call: Option<A>)
      requires Valid()
      ensures call.Some? <==> burst != []
      ensures burst != [] ==> call == Some(burst[|burst| - 1])
    {
      call := flushArgs;
    }
  }
}
