/** `throttle` and `debounce`: the two rate limiters used by the keyboard
    and grid handlers. The clock is an explicit argument `now` (milliseconds)
    and the timer of `debounce` is a pending slot that `Tick` fires. */
module Debounce {
  import opened Common

  /** Every two of `times` are at least `gap` apart, later ones later. */
  ghost predicate Spaced(times: seq<int>, gap: int) {
    forall i, j :: 0 <= i < j < |times| ==> times[j] - times[i] >= gap
  }

  /** A wrapped function that runs at most once per `interval` ms; `runs`
      records the times at which it ran. */
  class Throttle {
    const interval: int
    var lastCall: int
    ghost var runs: seq<int>

    /** `lastCall` is the time of the latest run (0 before the first), and
        for a non-negative interval the runs are `interval` apart. */
    ghost predicate Valid()
      reads this
    {
      && lastCall == (if runs == [] then 0 else runs[|runs| - 1])
      && (interval >= 0 ==> Spaced(runs, interval))
    }

    constructor(interval: int)
      ensures this.interval == interval && lastCall == 0 && runs == [] && Valid()
    {
      this.interval := interval;
      lastCall := 0;
      runs := [];
    }

    /** A call at time `now`: it runs exactly when `interval` ms have passed
        since the last run, and only a run moves `lastCall`. */
    method Call(now: int) returns (ran: bool)
      requires Valid()
      modifies this
      ensures ran <==> now - old(lastCall) >= interval
      ensures ran ==> lastCall == now && runs == old(runs) + [now]
      ensures !ran ==> lastCall == old(lastCall) && runs == old(runs)
      ensures Valid()
    {
      if now - lastCall >= interval {
        lastCall := now;
        runs := runs + [now];
        ran := true;
      } else {
        ran := false;
      }
    }
  }

  /** A wrapped function whose call is postponed by `delay` ms, a newer call
      replacing the one still waiting; `fired` records the arguments of every
      call that ran. */
  class Debouncer<A> {
    const delay: int
    /** The timer: the arguments of the waiting call and when it is due. */
    var pending: Option<(A, int)>
    ghost var fired: seq<A>

    constructor(delay: int)
      ensures this.delay == delay && pending == None && fired == []
    {
      this.delay := delay;
      pending := None;
      fired := [];
    }

    /** The debounced call: any waiting call is dropped and this one waits. */
    method Call(args: A, now: int)
      modifies this
      ensures pending == Some((args, now + delay)) && fired == old(fired)
    {
      pending := Some((args, now + delay));
    }

    /** `cancel()`: nothing waits any more. */
    method Cancel()
      modifies this
      ensures pending == None && fired == old(fired)
    {
      pending := None;
    }

    /** Time `now` is reached: a waiting call that is due runs with its
        arguments and the slot empties; otherwise nothing happens. */
    method Tick(now: int) returns (ran: Option<A>)
      modifies this
      ensures old(pending).Some? && now >= old(pending).value.1 ==>
        ran == Some(old(pending).value.0) && pending == None && fired == old(fired) + [ran.value]
      ensures !(old(pending).Some? && now >= old(pending).value.1) ==>
        ran == None && pending == old(pending) && fired == old(fired)
    {
      if pending.Some? && now >= pending.value.1 {
        ran := Some(pending.value.0);
        fired := fired + [pending.value.0];
        pending := None;
      } else {
        ran := None;
      }
    }
  }
}
